/**
 * The canonical text of a record value, used to tell whether a field was edited, and the patch computed with it.
 * Text is a sequence of UTF-16 code units, as in JavaScript: sorting and escaping work on single units.
 */
module CanonicalText {
  import opened Common

  type Unit = n: int | 0 <= n < 0x1_0000

  type Text = seq<Unit>

  /**
   * A JSON value. A number is its JavaScript number text, which is the same for two numbers exactly when the numbers
   * are equal (0 and -0 are). The members of an object are in insertion order.
   */
  datatype Json =
    | Null
    | Bool(value: bool)
    | Num(number: Text)
    | Str(text: Text)
    | Arr(items: seq<Json>)
    | Obj(members: seq<Member>)

  datatype Member = Member(key: Text, value: Json)

  predicate NumberUnit(u: Unit) {
    '0' as int <= u <= '9' as int || u == '-' as int || u == '+' as int || u == '.' as int || u == 'e' as int
  }

  predicate NumberText(t: Text) { t != [] && forall i :: 0 <= i < |t| ==> NumberUnit(t[i]) }

  ghost predicate DistinctKeys(members: seq<Member>) {
    forall i, j :: 0 <= i < j < |members| ==> members[i].key != members[j].key
  }

  /** What every value parsed from JSON satisfies. */
  ghost predicate Valid(j: Json) {
    match j
    case Num(number) => NumberText(number)
    case Arr(items) => forall i :: 0 <= i < |items| ==> Valid(items[i])
    case Obj(members) => DistinctKeys(members) && forall i :: 0 <= i < |members| ==> Valid(members[i].value)
    case _ => true
  }

  // ---- Equality up to key order ----

  ghost predicate HasKey(members: seq<Member>, key: Text) { exists i :: 0 <= i < |members| && members[i].key == key }

  /** The same value, where the order of an object's keys does not matter. */
  ghost predicate Alike(a: Json, b: Json) {
    match a
    case Arr(items) =>
      b.Arr? && |items| == |b.items| && forall i :: 0 <= i < |items| ==> Alike(items[i], b.items[i])
    case Obj(members) =>
      && b.Obj?
      && (forall i :: 0 <= i < |members| ==> HasKey(b.members, members[i].key))
      && (forall k :: 0 <= k < |b.members| ==> HasKey(members, b.members[k].key))
      && (forall i, k :: 0 <= i < |members| && 0 <= k < |b.members| && members[i].key == b.members[k].key ==>
                           Alike(members[i].value, b.members[k].value))
    case _ => a == b
  }

  // ---- Key order ----

  /** Order by code unit, a prefix before its extensions. */
  predicate Before(a: Text, b: Text) {
    b != [] && (a == [] || a[0] < b[0] || (a[0] == b[0] && Before(a[1..], b[1..])))
  }

  lemma {:induction false} OneIsBefore(a: Text, b: Text)
    ensures a == b || Before(a, b) || Before(b, a)
    ensures !(Before(a, b) && Before(b, a)) && !Before(a, a)
  {
    if a != [] && b != [] && a[0] == b[0] {
      OneIsBefore(a[1..], b[1..]);
      OneIsBefore(a[1..], a[1..]);
      assert a == [a[0]] + a[1..] && b == [b[0]] + b[1..];
    } else if a != [] {
      OneIsBefore(a[1..], a[1..]);
    }
  }

  lemma {:induction false} BeforeIsTransitive(a: Text, b: Text, c: Text)
    requires Before(a, b) && Before(b, c)
    ensures Before(a, c)
  {
    if a != [] && a[0] == b[0] && b[0] == c[0] { BeforeIsTransitive(a[1..], b[1..], c[1..]); }
  }

  function Insert(members: seq<Member>, m: Member): seq<Member> {
    if members == [] || Before(members[|members| - 1].key, m.key) then members + [m]
    else Insert(members[..|members| - 1], m) + [members[|members| - 1]]
  }

  function SortByKey(members: seq<Member>): (r: seq<Member>)
    ensures multiset(r) == multiset(members)
  {
    if members == [] then []
    else
      var init, last := members[..|members| - 1], members[|members| - 1];
      assert members == init + [last];
      InsertAdds(SortByKey(init), last);
      Insert(SortByKey(init), last)
  }

  lemma {:induction false} InsertAdds(members: seq<Member>, m: Member)
    ensures multiset(Insert(members, m)) == multiset(members) + multiset{m}
  {
    if members == [] || Before(members[|members| - 1].key, m.key) {
    } else {
      var init, last := members[..|members| - 1], members[|members| - 1];
      assert members == init + [last];
      InsertAdds(init, m);
    }
  }

  // ---- JSON.stringify of a string ----

  const QUOTE: Unit := '"' as int
  const BACKSLASH: Unit := '\\' as int

  predicate High(u: Unit) { 0xD800 <= u < 0xDC00 }

  predicate Low(u: Unit) { 0xDC00 <= u < 0xE000 }

  function Hex(d: int): Unit
    requires 0 <= d < 16
  {
    if d < 10 then 48 + d else 87 + d
  }

  function UnicodeEscape(u: Unit): Text {
    [BACKSLASH, 'u' as int, Hex(u / 4096), Hex(u / 256 % 16), Hex(u / 16 % 16), Hex(u % 16)]
  }

  /** The letter of a two-unit escape. */
  function ShortEscape(u: Unit): Option<Unit> {
    if u == QUOTE || u == BACKSLASH then Some(u)
    else if u == 8 then Some('b' as int)
    else if u == 9 then Some('t' as int)
    else if u == 10 then Some('n' as int)
    else if u == 12 then Some('f' as int)
    else if u == 13 then Some('r' as int)
    else None
  }

  /** One unit that is not half of a surrogate pair. */
  function Escaped(u: Unit): Text {
    if ShortEscape(u).Some? then [BACKSLASH, ShortEscape(u).value]
    else if u < 32 || High(u) || Low(u) then UnicodeEscape(u)
    else [u]
  }

  predicate Pair(s: Text) { |s| > 1 && High(s[0]) && Low(s[1]) }

  /** How many units of a string are printed together: a surrogate pair, or one unit. */
  function Width(s: Text): nat
    requires s != []
  {
    if Pair(s) then 2 else 1
  }

  function Head(s: Text): Text
    requires s != []
  {
    if Pair(s) then [s[0], s[1]] else Escaped(s[0])
  }

  function Body(s: Text): Text { if s == [] then [] else Head(s) + Body(s[Width(s)..]) }

  function Quoted(s: Text): Text { [QUOTE] + Body(s) + [QUOTE] }

  // ---- stableRecordStringify ----

  function Ascii(s: string): Text
    requires forall i :: 0 <= i < |s| ==> s[i] < 128 as char
  {
    seq(|s|, i requires 0 <= i < |s| => s[i] as int)
  }

  const COMMA: Unit := ',' as int

  function Stringify(j: Json): Text
    decreases j
  {
    match j
    case Null => Ascii("null")
    case Bool(value) => if value then Ascii("true") else Ascii("false")
    case Num(number) => number
    case Str(text) => Quoted(text)
    case Arr(items) => ['[' as int] + Items(items, j) + [']' as int]
    case Obj(members) =>
      assert forall m :: m in SortByKey(members) ==> m in multiset(SortByKey(members));
      ['{' as int] + Members(SortByKey(members), j) + ['}' as int]
  }

  function Items(items: seq<Json>, ghost within: Json): Text
    requires forall i :: 0 <= i < |items| ==> items[i] < within
    decreases within, |items|
  {
    if items == [] then []
    else if |items| == 1 then Stringify(items[0])
    else Stringify(items[0]) + [COMMA] + Items(items[1..], within)
  }

  function Members(members: seq<Member>, ghost within: Json): Text
    requires forall m :: m in members ==> m.value < within
    decreases within, |members|
  {
    if members == [] then []
    else if |members| == 1 then MemberText(members[0], within)
    else MemberText(members[0], within) + [COMMA] + Members(members[1..], within)
  }

  function MemberText(m: Member, ghost within: Json): Text
    requires m.value < within
    decreases within, 0
  {
    Quoted(m.key) + [':' as int] + Stringify(m.value)
  }

  // ---- The text can be read back in only one way ----

  lemma SameStart(p: Text, q: Text, x: Text, y: Text)
    requires p + x == q + y && |p| == |q|
    ensures p == q && x == y
  {
    assert (p + x)[..|p|] == p && (q + y)[..|q|] == q;
    assert (p + x)[|p|..] == x && (q + y)[|q|..] == y;
  }

  lemma HexIsInjective(c: int, d: int)
    requires 0 <= c < 16 && 0 <= d < 16 && Hex(c) == Hex(d)
    ensures c == d
  {
  }

  lemma DigitsAddUp(u: Unit)
    ensures u == u / 4096 * 4096 + u / 256 % 16 * 256 + u / 16 % 16 * 16 + u % 16
  {
    assert u / 16 == u / 16 / 16 * 16 + u / 16 % 16 && u / 16 / 16 == u / 256;
    assert u / 256 == u / 256 / 16 * 16 + u / 256 % 16 && u / 256 / 16 == u / 4096;
  }

  lemma UnicodeEscapeIsInjective(u: Unit, v: Unit)
    requires UnicodeEscape(u) == UnicodeEscape(v)
    ensures u == v
  {
    hide Hex;
    var e, f := UnicodeEscape(u), UnicodeEscape(v);
    assert e[2] == f[2] && e[3] == f[3] && e[4] == f[4] && e[5] == f[5];
    HexIsInjective(u / 4096, v / 4096);
    HexIsInjective(u / 256 % 16, v / 256 % 16);
    HexIsInjective(u / 16 % 16, v / 16 % 16);
    HexIsInjective(u % 16, v % 16);
    DigitsAddUp(u);
    DigitsAddUp(v);
  }

  lemma EscapedStart(u: Unit)
    ensures var e := Escaped(u);
            |e| > 0 && e[0] != QUOTE && !High(e[0]) && (e[0] != BACKSLASH ==> e == [u])
            && (e[0] == BACKSLASH ==> |e| > 1 && (if e[1] == 'u' as int then e == UnicodeEscape(u)
                                                  else |e| == 2 && ShortEscape(u) == Some(e[1])))
  {
  }

  lemma {:induction false} EscapedIsPrefixFree(u: Unit, v: Unit, x: Text, y: Text)
    requires Escaped(u) + x == Escaped(v) + y
    ensures u == v && x == y
  {
    var s := Escaped(u) + x;
    EscapedStart(u);
    EscapedStart(v);
    assert s[0] == Escaped(u)[0] == Escaped(v)[0];
    if s[0] == BACKSLASH {
      assert s[1] == Escaped(u)[1] == Escaped(v)[1];
      SameStart(Escaped(u), Escaped(v), x, y);
      if s[1] == 'u' as int { UnicodeEscapeIsInjective(u, v); }
    } else {
      SameStart(Escaped(u), Escaped(v), x, y);
    }
  }

  lemma {:induction false} HeadIsPrefixFree(a: Text, b: Text, x: Text, y: Text)
    requires a != [] && b != [] && Head(a) + x == Head(b) + y
    ensures Width(a) == Width(b) && a[..Width(a)] == b[..Width(b)] && x == y
  {
    hide Escaped;
    var s := Head(a) + x;
    EscapedStart(a[0]);
    EscapedStart(b[0]);
    assert s[0] == Head(a)[0] == Head(b)[0];
    if Pair(a) {
      SameStart(Head(a), Head(b), x, y);
    } else {
      EscapedIsPrefixFree(a[0], b[0], x, y);
    }
  }

  lemma {:induction false} BodyIsPrefixFree(a: Text, b: Text, x: Text, y: Text)
    requires Body(a) + [QUOTE] + x == Body(b) + [QUOTE] + y
    ensures a == b && x == y
    decreases |a| + |b|
  {
    hide Escaped, Head;
    var s := Body(a) + [QUOTE] + x;
    if a == [] || b == [] {
      if a != [] { HeadStart(a); }
      if b != [] { HeadStart(b); }
      assert s[0] == QUOTE;
      assert s == [QUOTE] + x == [QUOTE] + y;
      SameStart([QUOTE], [QUOTE], x, y);
    } else {
      var v, w := a[Width(a)..], b[Width(b)..];
      assert s == Head(a) + (Body(v) + [QUOTE] + x);
      assert s == Head(b) + (Body(w) + [QUOTE] + y);
      HeadIsPrefixFree(a, b, Body(v) + [QUOTE] + x, Body(w) + [QUOTE] + y);
      BodyIsPrefixFree(v, w, x, y);
      assert a == a[..Width(a)] + v && b == b[..Width(b)] + w;
    }
  }

  lemma HeadStart(a: Text)
    requires a != []
    ensures |Head(a)| > 0 && Head(a)[0] != QUOTE
  {
    EscapedStart(a[0]);
  }

  /** A quoted string ends where it ends: no other string, followed by anything, gives the same text. */
  lemma {:induction false} QuotedIsPrefixFree(a: Text, b: Text, x: Text, y: Text)
    requires Quoted(a) + x == Quoted(b) + y
    ensures a == b && x == y
  {
    hide Body;
    assert Quoted(a) + x == [QUOTE] + (Body(a) + [QUOTE] + x);
    assert Quoted(b) + y == [QUOTE] + (Body(b) + [QUOTE] + y);
    SameStart([QUOTE], [QUOTE], Body(a) + [QUOTE] + x, Body(b) + [QUOTE] + y);
    BodyIsPrefixFree(a, b, x, y);
  }

  /** A number stops at anything that is not part of a number. */
  predicate Stops(x: Text) { x == [] || !NumberUnit(x[0]) }

  lemma {:induction false} NumbersArePrefixFree(a: Text, b: Text, x: Text, y: Text)
    requires NumberText(a) && NumberText(b) && Stops(x) && Stops(y) && a + x == b + y
    ensures a == b && x == y
  {
    var s := a + x;
    assert forall i :: 0 <= i < |a| ==> s[i] == a[i];
    assert forall i :: 0 <= i < |b| ==> s[i] == b[i];
    assert |a| < |s| ==> s[|a|] == x[0];
    assert |b| < |s| ==> s[|b|] == y[0];
    SameStart(a, b, x, y);
  }

  /** The first unit tells what kind of value follows. */
  function Opening(j: Json): set<Unit> {
    match j
    case Null => {'n' as int}
    case Bool(value) => {if value then 't' as int else 'f' as int}
    case Num(_) => set u: Unit | 43 <= u <= 101 && NumberUnit(u)
    case Str(_) => {QUOTE}
    case Arr(_) => {'[' as int}
    case Obj(_) => {'{' as int}
  }

  lemma {:induction false} StringifyOpens(j: Json)
    requires Valid(j)
    ensures Stringify(j) != [] && Stringify(j)[0] in Opening(j)
  {
    hide SortByKey;
  }

  /** What follows the first of several printed values. */
  function After(rest: Text, more: bool, close: Unit, x: Text): Text {
    if more then [COMMA] + (rest + [close] + x) else [close] + x
  }

  lemma {:induction false} AfterIsPrefixFree(p: Text, q: Text, more: bool, more': bool, close: Unit, x: Text, y: Text)
    requires close != COMMA && After(p, more, close, x) == After(q, more', close, y)
    ensures more == more' && if more then p + [close] + x == q + [close] + y else x == y
  {
    assert After(p, more, close, x)[0] == (if more then COMMA else close);
    assert After(q, more', close, y)[0] == (if more' then COMMA else close);
    if more {
      SameStart([COMMA], [COMMA], p + [close] + x, q + [close] + y);
    } else {
      SameStart([close], [close], x, y);
    }
  }

  /** Equal texts are texts of the same value, and end at the same place. */
  lemma {:induction false} TextDeterminesValue(a: Json, b: Json, x: Text, y: Text)
    requires Valid(a) && Valid(b) && Stops(x) && Stops(y)
    requires Stringify(a) + x == Stringify(b) + y
    ensures Alike(a, b) && x == y
    decreases a
  {
    hide Quoted, SortByKey, Items, Members;
    StringifyOpens(a);
    StringifyOpens(b);
    assert (Stringify(a) + x)[0] == Stringify(a)[0] == Stringify(b)[0];
    match a
    case Null => SameStart(Ascii("null"), Ascii("null"), x, y);
    case Bool(value) => SameStart(Stringify(a), Stringify(b), x, y);
    case Num(number) => NumbersArePrefixFree(number, b.number, x, y);
    case Str(text) => QuotedIsPrefixFree(text, b.text, x, y);
    case Arr(items) =>
      var close: Unit := ']' as int;
      assert Stringify(a) + x == ['[' as int] + (Items(items, a) + [close] + x);
      assert Stringify(b) + y == ['[' as int] + (Items(b.items, b) + [close] + y);
      SameStart(['[' as int], ['[' as int], Items(items, a) + [close] + x, Items(b.items, b) + [close] + y);
      TextDeterminesItems(items, b.items, a, b, x, y);
    case Obj(members) =>
      var close: Unit := '}' as int;
      var sa, sb := SortByKey(members), SortByKey(b.members);
      SortKeepsMembers(members);
      SortKeepsMembers(b.members);
      assert Stringify(a) + x == ['{' as int] + (Members(sa, a) + [close] + x);
      assert Stringify(b) + y == ['{' as int] + (Members(sb, b) + [close] + y);
      SameStart(['{' as int], ['{' as int], Members(sa, a) + [close] + x, Members(sb, b) + [close] + y);
      TextDeterminesMembers(sa, sb, a, b, x, y);
      SameMembersInOrder(members, b.members, sa, sb);
  }

  lemma {:induction false} SortKeepsMembers(members: seq<Member>)
    ensures forall m :: m in SortByKey(members) <==> m in members
  {
    forall m ensures m in SortByKey(members) <==> m in members {
      assert m in multiset(SortByKey(members)) <==> m in multiset(members);
    }
  }

  lemma {:induction false} ItemsSplit(items: seq<Json>, within: Json, close: Unit, x: Text)
    requires forall i :: 0 <= i < |items| ==> items[i] < within
    ensures items == [] ==> Items(items, within) + [close] + x == [close] + x
    ensures items != [] ==>
              Items(items, within) + [close] + x
              == Stringify(items[0]) + After(Items(items[1..], within), |items| > 1, close, x)
  {
    hide Stringify;
    if items == [] {
      assert [] + [close] == [close];
    } else {
      var p, v := Items(items[1..], within), Stringify(items[0]);
      if |items| > 1 {
        assert v + [COMMA] + p + [close] + x == v + ([COMMA] + (p + [close] + x));
      } else {
        assert v + [close] + x == v + ([close] + x);
      }
    }
  }

  lemma {:induction false} TextDeterminesItems(items: seq<Json>, others: seq<Json>, within: Json, within': Json, x: Text, y: Text)
    requires forall i :: 0 <= i < |items| ==> items[i] < within && Valid(items[i])
    requires forall i :: 0 <= i < |others| ==> others[i] < within' && Valid(others[i])
    requires Items(items, within) + [']' as int] + x == Items(others, within') + [']' as int] + y
    ensures |items| == |others| && (forall i :: 0 <= i < |items| ==> Alike(items[i], others[i])) && x == y
    decreases within, |items|
  {
    hide Alike, Stringify, Items, Valid, After;
    var close: Unit := ']' as int;
    ItemsSplit(items, within, close, x);
    ItemsSplit(others, within', close, y);
    var p, q := if items == [] then [] else Items(items[1..], within), if others == [] then [] else Items(others[1..], within');
    var r, t := After(p, |items| > 1, close, x), After(q, |others| > 1, close, y);
    if items == [] || others == [] {
      if items != [] { NotAtClose(items[0], r, close); }
      if others != [] { NotAtClose(others[0], t, close); }
      assert ([close] + x)[0] == close && ([close] + y)[0] == close;
      SameStart([close], [close], x, y);
    } else {
      AfterStops(p, |items| > 1, close, x);
      AfterStops(q, |others| > 1, close, y);
      TextDeterminesValue(items[0], others[0], r, t);
      AfterIsPrefixFree(p, q, |items| > 1, |others| > 1, close, x, y);
      if |items| > 1 { TextDeterminesItems(items[1..], others[1..], within, within', x, y); }
    }
  }

  lemma AfterStops(rest: Text, more: bool, close: Unit, x: Text)
    requires !NumberUnit(close)
    ensures Stops(After(rest, more, close, x))
  {
  }

  lemma {:induction false} NotAtClose(j: Json, r: Text, close: Unit)
    requires Valid(j) && (close == ']' as int || close == '}' as int)
    ensures (Stringify(j) + r)[0] != close
  {
    StringifyOpens(j);
  }

  lemma {:induction false} MembersSplit(members: seq<Member>, within: Json, x: Text)
    requires forall m :: m in members ==> m.value < within
    ensures members == [] ==> Members(members, within) + ['}' as int] + x == ['}' as int] + x
    ensures members != [] ==>
              Members(members, within) + ['}' as int] + x
              == Quoted(members[0].key) + ([':' as int] + (Stringify(members[0].value)
                                           + After(Members(members[1..], within), |members| > 1, '}' as int, x)))
  {
    hide Stringify, Quoted;
    var close: Unit := '}' as int;
    if members == [] {
      assert [] + [close] == [close];
    } else {
      var p, k, v := Members(members[1..], within), Quoted(members[0].key), Stringify(members[0].value);
      if |members| > 1 {
        assert k + [':' as int] + v + [COMMA] + p + [close] + x == k + ([':' as int] + (v + ([COMMA] + (p + [close] + x))));
      } else {
        assert k + [':' as int] + v + [close] + x == k + ([':' as int] + (v + ([close] + x)));
      }
    }
  }

  lemma {:induction false} TextDeterminesMembers(
    members: seq<Member>, others: seq<Member>, within: Json, within': Json, x: Text, y: Text)
    requires forall m :: m in members ==> m.value < within && Valid(m.value)
    requires forall m :: m in others ==> m.value < within' && Valid(m.value)
    requires Members(members, within) + ['}' as int] + x == Members(others, within') + ['}' as int] + y
    ensures |members| == |others| && x == y
    ensures forall i :: 0 <= i < |members| ==> members[i].key == others[i].key && Alike(members[i].value, others[i].value)
    decreases within, |members|
  {
    hide Alike, Stringify, Quoted, Members, Valid, After;
    var close: Unit := '}' as int;
    MembersSplit(members, within, x);
    MembersSplit(others, within', y);
    var p := if members == [] then [] else Members(members[1..], within);
    var q := if others == [] then [] else Members(others[1..], within');
    var r, t := After(p, |members| > 1, close, x), After(q, |others| > 1, close, y);
    if members == [] || others == [] {
      if members != [] { QuotedOpens(members[0].key, [':' as int] + (Stringify(members[0].value) + r)); }
      if others != [] { QuotedOpens(others[0].key, [':' as int] + (Stringify(others[0].value) + t)); }
      assert ([close] + x)[0] == close && ([close] + y)[0] == close;
      SameStart([close], [close], x, y);
    } else {
      var m, n := members[0], others[0];
      QuotedIsPrefixFree(m.key, n.key, [':' as int] + (Stringify(m.value) + r), [':' as int] + (Stringify(n.value) + t));
      SameStart([':' as int], [':' as int], Stringify(m.value) + r, Stringify(n.value) + t);
      AfterStops(p, |members| > 1, close, x);
      AfterStops(q, |others| > 1, close, y);
      TextDeterminesValue(m.value, n.value, r, t);
      AfterIsPrefixFree(p, q, |members| > 1, |others| > 1, close, x, y);
      if |members| > 1 { TextDeterminesMembers(members[1..], others[1..], within, within', x, y); }
    }
  }

  lemma QuotedOpens(key: Text, r: Text)
    ensures (Quoted(key) + r)[0] == QUOTE
  {
  }

  lemma {:induction false} SameMembersInOrder(ms: seq<Member>, ns: seq<Member>, sa: seq<Member>, sb: seq<Member>)
    requires DistinctKeys(ms) && DistinctKeys(ns) && |sa| == |sb|
    requires forall m :: m in sa <==> m in ms
    requires forall n :: n in sb <==> n in ns
    requires forall p :: 0 <= p < |sa| ==> sa[p].key == sb[p].key && Alike(sa[p].value, sb[p].value)
    ensures Alike(Obj(ms), Obj(ns))
  {
    forall i | 0 <= i < |ms|
      ensures HasKey(ns, ms[i].key)
      ensures forall k :: 0 <= k < |ns| && ms[i].key == ns[k].key ==> Alike(ms[i].value, ns[k].value)
    {
      assert ms[i] in sa;
      var p :| 0 <= p < |sa| && sa[p] == ms[i];
      assert sb[p] in ns;
      var k :| 0 <= k < |ns| && ns[k] == sb[p];
    }
    forall k | 0 <= k < |ns| ensures HasKey(ms, ns[k].key) {
      assert ns[k] in sb;
      var p :| 0 <= p < |sb| && sb[p] == ns[k];
      assert sa[p] in ms;
    }
  }

  // ---- Equal values have equal texts ----

  ghost predicate StrictlySorted(members: seq<Member>) {
    forall i, j :: 0 <= i < j < |members| ==> Before(members[i].key, members[j].key)
  }

  lemma {:induction false} InsertKeepsOrder(members: seq<Member>, m: Member)
    requires StrictlySorted(members) && !HasKey(members, m.key)
    ensures StrictlySorted(Insert(members, m))
  {
    if members == [] {
    } else {
      var init, last := members[..|members| - 1], members[|members| - 1];
      if Before(last.key, m.key) {
        forall i | 0 <= i < |members| ensures Before(members[i].key, m.key) {
          if i < |init| { BeforeIsTransitive(members[i].key, last.key, m.key); }
        }
      } else {
        assert members[|init|].key != m.key;
        OneIsBefore(last.key, m.key);
        forall i | 0 <= i < |init| ensures init[i].key != m.key { assert members[i].key != m.key; }
        InsertKeepsOrder(init, m);
        InsertAdds(init, m);
        var r := Insert(init, m);
        forall i | 0 <= i < |r| ensures Before(r[i].key, last.key) {
          assert r[i] in multiset(r);
          if r[i] != m {
            assert r[i] in init;
            var k :| 0 <= k < |init| && init[k] == r[i];
            assert members[k] == r[i];
          }
        }
      }
    }
  }

  lemma {:induction false} SortSorts(members: seq<Member>)
    requires DistinctKeys(members)
    ensures StrictlySorted(SortByKey(members))
  {
    if members != [] {
      var init, last := members[..|members| - 1], members[|members| - 1];
      SortSorts(init);
      SortKeepsMembers(init);
      var r := SortByKey(init);
      forall i | 0 <= i < |r| ensures r[i].key != last.key {
        assert r[i] in r;
        assert r[i] in init;
        var k :| 0 <= k < |init| && init[k] == r[i];
        assert members[k] == r[i];
      }
      InsertKeepsOrder(r, last);
    }
  }

  /** Two sorted lists with the same keys have them in the same places. */
  lemma {:induction false} FirstKeysAgree(sa: seq<Member>, sb: seq<Member>)
    requires StrictlySorted(sa) && StrictlySorted(sb) && sa != [] && sb != []
    requires HasKey(sb, sa[0].key) && HasKey(sa, sb[0].key)
    ensures sa[0].key == sb[0].key
  {
    var k :| 0 <= k < |sb| && sb[k].key == sa[0].key;
    var i :| 0 <= i < |sa| && sa[i].key == sb[0].key;
    hide Before;
    OneIsBefore(sa[0].key, sb[0].key);
  }

  lemma {:induction false} SortedKeysAgree(sa: seq<Member>, sb: seq<Member>)
    requires StrictlySorted(sa) && StrictlySorted(sb)
    requires forall i :: 0 <= i < |sa| ==> HasKey(sb, sa[i].key)
    requires forall k :: 0 <= k < |sb| ==> HasKey(sa, sb[k].key)
    ensures |sa| == |sb| && forall i :: 0 <= i < |sa| ==> sa[i].key == sb[i].key
  {
    hide Before;
    if sa == [] || sb == [] {
      if sa != [] { SomeKey(sa, sb); } else if sb != [] { SomeKey(sb, sa); }
    } else {
      FirstKeysAgree(sa, sb);
      TailKeys(sa, sb);
      TailKeys(sb, sa);
      SortedKeysAgree(sa[1..], sb[1..]);
      assert forall j :: 1 <= j < |sa| ==> sa[j] == sa[1..][j - 1] && sb[j] == sb[1..][j - 1];
    }
  }

  lemma SomeKey(sa: seq<Member>, sb: seq<Member>)
    requires sa != [] && forall i :: 0 <= i < |sa| ==> HasKey(sb, sa[i].key)
    ensures sb != []
  {
    assert HasKey(sb, sa[0].key);
  }

  lemma {:induction false} TailKeys(sa: seq<Member>, sb: seq<Member>)
    requires sa != [] && sb != [] && sa[0].key == sb[0].key && StrictlySorted(sa)
    requires forall i :: 0 <= i < |sa| ==> HasKey(sb, sa[i].key)
    ensures forall i :: 0 <= i < |sa[1..]| ==> HasKey(sb[1..], sa[1..][i].key)
  {
    forall i | 0 <= i < |sa[1..]| ensures HasKey(sb[1..], sa[1..][i].key) {
      var key := sa[i + 1].key;
      OneIsBefore(sa[0].key, key);
      assert HasKey(sb, key);
      var k :| 0 <= k < |sb| && sb[k].key == key;
      assert sb[1..][k - 1].key == key;
    }
  }

  lemma {:induction false} ValueDeterminesText(a: Json, b: Json)
    requires Valid(a) && Valid(b) && Alike(a, b)
    ensures Stringify(a) == Stringify(b)
    decreases a
  {
    hide Quoted;
    match a
    case Arr(items) => ValueDeterminesItems(items, b.items, a, b);
    case Obj(members) =>
      var sa, sb := SortByKey(members), SortByKey(b.members);
      SortKeepsMembers(members);
      SortKeepsMembers(b.members);
      SortSorts(members);
      SortSorts(b.members);
      SortedHaveEachOthersKeys(members, b.members, sa, sb);
      SortedHaveEachOthersKeys(b.members, members, sb, sa);
      SortedKeysAgree(sa, sb);
      forall i | 0 <= i < |sa| ensures Alike(sa[i].value, sb[i].value) {
        assert sa[i] in members && sb[i] in b.members;
      }
      ValueDeterminesMembers(sa, sb, a, b);
    case _ =>
  }

  lemma {:induction false} SortedHaveEachOthersKeys(ms: seq<Member>, ns: seq<Member>, sa: seq<Member>, sb: seq<Member>)
    requires forall m :: m in sa <==> m in ms
    requires forall n :: n in sb <==> n in ns
    requires forall i :: 0 <= i < |ms| ==> HasKey(ns, ms[i].key)
    ensures forall i :: 0 <= i < |sa| ==> HasKey(sb, sa[i].key)
  {
    forall i | 0 <= i < |sa| ensures HasKey(sb, sa[i].key) {
      assert sa[i] in ms;
      var h :| 0 <= h < |ms| && ms[h] == sa[i];
      assert HasKey(ns, ms[h].key);
      var k :| 0 <= k < |ns| && ns[k].key == ms[h].key;
      assert ns[k] in sb;
      var g :| 0 <= g < |sb| && sb[g] == ns[k];
    }
  }

  lemma {:induction false} ValueDeterminesItems(items: seq<Json>, others: seq<Json>, within: Json, within': Json)
    requires |items| == |others|
    requires forall i :: 0 <= i < |items| ==>
               items[i] < within && others[i] < within' && Valid(items[i]) && Valid(others[i]) && Alike(items[i], others[i])
    ensures Items(items, within) == Items(others, within')
    decreases within, |items|
  {
    hide Stringify, Alike, Valid;
    if items != [] {
      ValueDeterminesText(items[0], others[0]);
      ValueDeterminesItems(items[1..], others[1..], within, within');
    }
  }

  lemma {:induction false} ValueDeterminesMembers(members: seq<Member>, others: seq<Member>, within: Json, within': Json)
    requires |members| == |others|
    requires forall m :: m in members ==> m.value < within && Valid(m.value)
    requires forall m :: m in others ==> m.value < within' && Valid(m.value)
    requires forall i :: 0 <= i < |members| ==> members[i].key == others[i].key && Alike(members[i].value, others[i].value)
    ensures Members(members, within) == Members(others, within')
    decreases within, |members|
  {
    hide Stringify, Alike, Valid, Quoted;
    if members != [] {
      ValueDeterminesText(members[0].value, others[0].value);
      ValueDeterminesMembers(members[1..], others[1..], within, within');
    }
  }

  /** Two JSON values have the same canonical text exactly when they are equal up to the order of object keys. */
  lemma {:induction false} CanonicalTextIsExact(a: Json, b: Json)
    requires Valid(a) && Valid(b)
    ensures Stringify(a) == Stringify(b) <==> Alike(a, b)
  {
    hide Stringify, Alike, Valid;
    if Stringify(a) == Stringify(b) {
      assert Stringify(a) + [] == Stringify(b) + [];
      TextDeterminesValue(a, b, [], []);
    }
    if Alike(a, b) { ValueDeterminesText(a, b); }
  }

  // ---- computeRecordPatch ----

  type Record = map<Text, Json>

  type Patch = map<Text, Option<Json>>

  ghost predicate ValidRecord(r: Record) { forall key :: key in r ==> Valid(r[key]) }

  /** A missing key reads as undefined. */
  function Lookup(r: Record, key: Text): Option<Json> { if key in r then Some(r[key]) else None }

  predicate DeepEqual(a: Option<Json>, b: Option<Json>) {
    a == b || (a.Some? && b.Some? && Stringify(a.value) == Stringify(b.value))
  }

  ghost predicate SameValue(a: Option<Json>, b: Option<Json>) {
    if a.Some? && b.Some? then Alike(a.value, b.value) else a == b
  }

  ghost predicate SameRecord(r: Record, s: Record) { forall key :: SameValue(Lookup(r, key), Lookup(s, key)) }

  /** Exactly the keys whose values differ, each with its new value; an undefined value stands for a removed key. */
  ghost predicate IsPatch(original: Record, draft: Record, patch: Patch) {
    && (forall key :: key in patch <==> !SameValue(Lookup(original, key), Lookup(draft, key)))
    && (forall key :: key in patch ==> patch[key] == Lookup(draft, key))
  }

  lemma {:induction false} DeepEqualIsExact(a: Option<Json>, b: Option<Json>)
    requires (a.Some? ==> Valid(a.value)) && (b.Some? ==> Valid(b.value))
    ensures DeepEqual(a, b) <==> SameValue(a, b)
  {
    hide Stringify, Alike, Valid;
    if a.Some? && b.Some? { CanonicalTextIsExact(a.value, b.value); }
  }

  method ComputeRecordPatch(original: Record, draft: Record) returns (patch: Patch)
    requires ValidRecord(original) && ValidRecord(draft)
    ensures IsPatch(original, draft, patch)
  {
    hide Stringify, Alike, Valid;
    patch := map[];
    var keys := original.Keys + draft.Keys;
    while keys != {}
      invariant keys <= original.Keys + draft.Keys
      invariant forall key :: key in patch <==> key !in keys && !SameValue(Lookup(original, key), Lookup(draft, key))
      invariant forall key :: key in patch ==> patch[key] == Lookup(draft, key)
      decreases keys
    {
      var key :| key in keys;
      var before, after := Lookup(original, key), Lookup(draft, key);
      DeepEqualIsExact(before, after);
      if !DeepEqual(before, after) {
        patch := patch[key := after];
      }
      keys := keys - {key};
    }
  }

  function Overlay(original: Record, patch: Patch): Record {
    map key | key in original.Keys + patch.Keys && (key in patch ==> patch[key].Some?) ::
      if key in patch then patch[key].value else original[key]
  }

  /** Laying the patch over the original gives the draft, and no patch with fewer keys does. */
  lemma {:induction false} PatchIsExact(original: Record, draft: Record, patch: Patch, other: Patch)
    requires ValidRecord(draft) && IsPatch(original, draft, patch)
    ensures SameRecord(Overlay(original, patch), draft)
    ensures SameRecord(Overlay(original, other), draft) ==> patch.Keys <= other.Keys
  {
    hide Alike;
    forall key ensures SameValue(Lookup(Overlay(original, patch), key), Lookup(draft, key)) {
      if key in patch { SameIsReflexiveFor(draft, key); }
    }
    if SameRecord(Overlay(original, other), draft) {
      forall key | key in patch ensures key in other {
        assert SameValue(Lookup(Overlay(original, other), key), Lookup(draft, key));
      }
    }
  }

  lemma SameIsReflexiveFor(r: Record, key: Text)
    requires ValidRecord(r)
    ensures SameValue(Lookup(r, key), Lookup(r, key))
  {
    if key in r { SameIsReflexive(r[key]); }
  }

  lemma {:induction false} SameIsReflexive(a: Json)
    requires Valid(a)
    ensures Alike(a, a)
  {
    match a
    case Arr(items) =>
      forall i | 0 <= i < |items| ensures Alike(items[i], items[i]) { SameIsReflexive(items[i]); }
    case Obj(members) =>
      forall i | 0 <= i < |members| ensures HasKey(members, members[i].key) && Alike(members[i].value, members[i].value) {
        SameIsReflexive(members[i].value);
      }
    case _ =>
  }
}
