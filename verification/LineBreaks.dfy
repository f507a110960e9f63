/**
 * Line breaks around an edit in a text area. The text area shows every break as a line feed; what is stored keeps the
 * breaks it had, as far as the edit left them alone.
 */
module LineBreaks {
  import opened Common

  const CR := '\r'
  const LF := '\n'

  /** A stored text is a run of tokens: a carriage return with its line feed, or one character. */
  datatype Token = CrLf | One(c: char) {
    function Text(): string { if CrLf? then [CR, LF] else [c] }

    /** What the text area shows for it. */
    function Shown(): char { if CrLf? || c == CR then LF else c }

    predicate Break() { CrLf? || c == CR || c == LF }
  }

  function Tokens(s: string): seq<Token> {
    if s == "" then []
    else if |s| > 1 && s[0] == CR && s[1] == LF then [CrLf] + Tokens(s[2..])
    else [One(s[0])] + Tokens(s[1..])
  }

  function Join(tokens: seq<Token>): string {
    if tokens == [] then "" else tokens[0].Text() + Join(tokens[1..])
  }

  function ShownAll(tokens: seq<Token>): (r: string)
    ensures |r| == |tokens| && forall i :: 0 <= i < |r| ==> r[i] == tokens[i].Shown()
  {
    seq(|tokens|, i requires 0 <= i < |tokens| => tokens[i].Shown())
  }

  /** The text as the text area shows it. */
  function Display(s: string): (r: string)
    ensures |r| == |Tokens(s)|
  {
    ShownAll(Tokens(s))
  }

  function Breaks(tokens: seq<Token>): (r: seq<Token>)
    ensures forall t :: t in r ==> t in tokens && t.Break()
  {
    if tokens == [] then [] else (if tokens[0].Break() then [tokens[0]] else []) + Breaks(tokens[1..])
  }

  predicate SameEnd(a: string, b: string, n: nat)
    requires n <= |a| && n <= |b|
  {
    forall k :: |a| - n <= k < |a| ==> a[k] == b[k + |b| - |a|]
  }

  predicate SameStart(a: string, b: string, n: nat)
    requires n <= |a| && n <= |b|
  {
    forall k :: 0 <= k < n ==> a[k] == b[k]
  }

  /** Extends a common end of `n` characters as far as it goes. */
  function CommonSuffix(a: string, b: string, n: nat): (r: nat)
    requires n <= |a| && n <= |b| && SameEnd(a, b, n)
    ensures n <= r <= |a| && r <= |b| && SameEnd(a, b, r)
    ensures r < |a| && r < |b| ==> a[|a| - r - 1] != b[|b| - r - 1]
    decreases |a| - n
  {
    if n < |a| && n < |b| && a[|a| - n - 1] == b[|b| - n - 1] then CommonSuffix(a, b, n + 1) else n
  }

  /** Extends a common start of `n` characters as far as it goes, up to `most`. */
  function CommonPrefix(a: string, b: string, most: nat, n: nat): (r: nat)
    requires n <= most <= |a| && most <= |b| && SameStart(a, b, n)
    ensures n <= r <= most && SameStart(a, b, r)
    ensures r < most ==> a[r] != b[r]
    decreases most - n
  {
    if n < most && a[n] == b[n] then CommonPrefix(a, b, most, n + 1) else n
  }

  /** The inserted text, its line feeds replaced by the removed breaks in turn and then by the separator. */
  function Filled(text: string, breaks: seq<Token>, separator: Token): (r: seq<Token>)
    ensures |r| == |text|
  {
    if text == "" then []
    else if text[0] != LF then [One(text[0])] + Filled(text[1..], breaks, separator)
    else if breaks != [] then [breaks[0]] + Filled(text[1..], breaks[1..], separator)
    else [separator] + Filled(text[1..], breaks, separator)
  }

  function Separator(tokens: seq<Token>): Token { if Breaks(tokens) == [] then One(LF) else Breaks(tokens)[0] }

  /** How much of the shown text before and after the edit is the same: as much at the end as there is, then at the start. */
  function Kept(shown: string, next: string): (k: (nat, nat))
    ensures k.0 + k.1 <= |shown| && k.0 + k.1 <= |next|
    ensures SameStart(shown, next, k.0) && SameEnd(shown, next, k.1)
    ensures k.1 < |shown| && k.1 < |next| ==> shown[|shown| - k.1 - 1] != next[|next| - k.1 - 1]
  {
    var suffix := CommonSuffix(shown, next, 0);
    var prefix := CommonPrefix(shown, next, Min(|shown|, |next|) - suffix, 0);
    (prefix, suffix)
  }

  /** The kept start, the inserted text with its breaks, and the kept end. */
  function Edited(tokens: seq<Token>, next: string, prefix: nat, suffix: nat): (r: seq<Token>)
    requires prefix + suffix <= |tokens| && prefix + suffix <= |next|
    ensures |r| == |next|
    ensures r[..prefix] == tokens[..prefix] && r[|next| - suffix..] == tokens[|tokens| - suffix..]
  {
    var inserted := Filled(next[prefix..|next| - suffix], Breaks(tokens[prefix..|tokens| - suffix]), Separator(tokens));
    tokens[..prefix] + inserted + tokens[|tokens| - suffix..]
  }

  /** The token each shown character of the result stands for. */
  function ResultTokens(previous: string, next: string): (r: seq<Token>)
    ensures |r| == |next|
  {
    if Display(previous) == next then Tokens(previous)
    else
      var (prefix, suffix) := Kept(Display(previous), next);
      Edited(Tokens(previous), next, prefix, suffix)
  }

  // ---- The loops of the source ----

  lemma {:induction false} JoinConcat(a: seq<Token>, b: seq<Token>)
    ensures Join(a + b) == Join(a) + Join(b)
  {
    if a == [] {
      assert a + b == b;
    } else {
      assert (a + b)[1..] == a[1..] + b;
      JoinConcat(a[1..], b);
    }
  }

  lemma {:induction false} JoinTokens(s: string)
    ensures Join(Tokens(s)) == s
  {
    if s == "" {
    } else if |s| > 1 && s[0] == CR && s[1] == LF {
      JoinTokens(s[2..]);
      assert Tokens(s)[1..] == Tokens(s[2..]) && s == [CR, LF] + s[2..];
    } else {
      JoinTokens(s[1..]);
      assert Tokens(s)[1..] == Tokens(s[1..]) && s == [s[0]] + s[1..];
    }
  }

  method FillBreaks(text: string, removed: seq<Token>, separator: Token) returns (inserted: string)
    ensures inserted == Join(Filled(text, removed, separator))
  {
    hide Join, Filled;
    var breaks := removed;
    inserted := "";
    EmptyJoin();
    ghost var done: seq<Token> := [];
    for i := 0 to |text|
      invariant inserted == Join(done)
      invariant done + Filled(text[i..], breaks, separator) == Filled(text, removed, separator)
    {
      assert text[i..][1..] == text[i + 1..];
      FilledOne(text[i..], breaks, separator);
      var token := One(text[i]);
      if text[i] == LF {
        if breaks != [] {
          token, breaks := breaks[0], breaks[1..];
        } else {
          token := separator;
        }
      }
      JoinConcat(done, [token]);
      JoinOne(token);
      inserted := inserted + token.Text();
      done := done + [token];
    }
    FilledNone(breaks, separator);
    assert text[|text|..] == "" && done + [] == done;
  }

  lemma {:induction false} FilledNone(breaks: seq<Token>, separator: Token)
    ensures Filled("", breaks, separator) == []
  {}

  lemma {:induction false} FilledOne(text: string, breaks: seq<Token>, separator: Token)
    requires text != ""
    ensures Filled(text, breaks, separator)
         == if text[0] != LF then [One(text[0])] + Filled(text[1..], breaks, separator)
            else if breaks != [] then [breaks[0]] + Filled(text[1..], breaks[1..], separator)
            else [separator] + Filled(text[1..], breaks, separator)
  {}

  lemma EmptyJoin()
    ensures Join([]) == ""
  {
  }

  lemma JoinOne(t: Token)
    ensures Join([t]) == t.Text()
  {
    assert Join([t][1..]) == "";
  }

  lemma EmptyEnd(a: string, b: string)
    ensures SameEnd(a, b, 0)
  {
  }

  lemma EmptyStart(a: string, b: string)
    ensures SameStart(a, b, 0)
  {
  }

  lemma LongerSameEnd(a: string, b: string, n: nat)
    requires n < |a| && n < |b| && SameEnd(a, b, n) && a[|a| - n - 1] == b[|b| - n - 1]
    ensures SameEnd(a, b, n + 1)
  {
  }

  lemma LongerSameStart(a: string, b: string, n: nat)
    requires n < |a| && n < |b| && SameStart(a, b, n) && a[n] == b[n]
    ensures SameStart(a, b, n + 1)
  {
  }

  method KeptLengths(shown: string, next: string) returns (prefix: nat, suffix: nat)
    ensures (prefix, suffix) == Kept(shown, next)
  {
    hide SameEnd, SameStart;
    EmptyEnd(shown, next);
    EmptyStart(shown, next);
    suffix := 0;
    while suffix < Min(|shown|, |next|) && shown[|shown| - suffix - 1] == next[|next| - suffix - 1]
      invariant suffix <= |shown| && suffix <= |next| && SameEnd(shown, next, suffix)
      invariant CommonSuffix(shown, next, suffix) == CommonSuffix(shown, next, 0)
    {
      LongerSameEnd(shown, next, suffix);
      suffix := suffix + 1;
    }
    prefix := 0;
    ghost var most := Min(|shown|, |next|) - suffix;
    while prefix < Min(|shown|, |next|) - suffix && shown[prefix] == next[prefix]
      invariant prefix <= most && SameStart(shown, next, prefix)
      invariant CommonPrefix(shown, next, most, prefix) == CommonPrefix(shown, next, most, 0)
    {
      LongerSameStart(shown, next, prefix);
      prefix := prefix + 1;
    }
  }

  method PreserveTextLineEndings(previous: string, next: string) returns (result: string)
    ensures result == Join(ResultTokens(previous, next))
  {
    hide Join, Tokens, Breaks, Filled, Kept, Separator;
    var tokens := Tokens(previous);
    var shown := Display(previous);
    if shown == next {
      JoinTokens(previous);
      return previous;
    }
    var prefix, suffix := KeptLengths(shown, next);
    var inserted := FillBreaks(next[prefix..|next| - suffix], Breaks(tokens[prefix..|tokens| - suffix]), Separator(tokens));
    result := Join(tokens[..prefix]) + inserted + Join(tokens[|tokens| - suffix..]);
    ghost var filled := Filled(next[prefix..|next| - suffix], Breaks(tokens[prefix..|tokens| - suffix]), Separator(tokens));
    JoinConcat(tokens[..prefix], filled);
    JoinConcat(tokens[..prefix] + filled, tokens[|tokens| - suffix..]);
  }

  // ---- What the result shows ----

  /** The character a token stands for in the edited text: itself, or a line feed for a break. */
  ghost predicate Fills(t: Token, c: char, breaks: seq<Token>, separator: Token) {
    if c == LF then (t in breaks || t == separator) else t == One(c)
  }

  lemma {:induction false} FilledFills(text: string, breaks: seq<Token>, separator: Token, i: nat)
    requires i < |text|
    ensures Fills(Filled(text, breaks, separator)[i], text[i], breaks, separator)
  {
    if i > 0 {
      FilledFills(text[1..], if text[0] == LF && breaks != [] then breaks[1..] else breaks, separator, i - 1);
    }
  }

  /** Where each token of the result comes from. */
  ghost predicate Source(previous: string, next: string, i: nat, t: Token)
    requires i < |next|
  {
    var tokens := Tokens(previous);
    || (t in tokens && t.Shown() == next[i])
    || (next[i] != LF && t == One(next[i]))
    || (next[i] == LF && t == Separator(tokens))
  }

  lemma {:induction false} ResultComesFrom(previous: string, next: string, i: nat)
    requires i < |next|
    ensures Source(previous, next, i, ResultTokens(previous, next)[i])
  {
    hide Filled, Kept, Breaks, Tokens, Separator, Edited, Display, SameStart, SameEnd;
    var tokens, shown := Tokens(previous), Display(previous);
    if shown == next {
      ShownAt(previous, i);
    } else {
      var (prefix, suffix) := Kept(shown, next);
      EditedAt(tokens, next, prefix, suffix, i);
      if i < prefix {
        StartCharacter(shown, next, prefix, i);
        ShownAt(previous, i);
      } else if i < |next| - suffix {
        var breaks := Breaks(tokens[prefix..|tokens| - suffix]);
        FilledFills(next[prefix..|next| - suffix], breaks, Separator(tokens), i - prefix);
        assert forall t :: t in breaks ==> t.Break() && t.Shown() == LF && t in tokens[prefix..|tokens| - suffix];
      } else {
        EndCharacters(shown, next, suffix, |next| - i - 1);
        ShownAt(previous, i - |next| + |tokens|);
      }
    }
  }

  lemma {:induction false} SeparatorShowsLineFeed(tokens: seq<Token>)
    ensures Separator(tokens).Break() && Separator(tokens).Shown() == LF
    ensures Separator(tokens) in tokens || (Separator(tokens) == One(LF) && Breaks(tokens) == [])
  {
    hide Breaks;
    if Breaks(tokens) != [] { assert Breaks(tokens)[0] in Breaks(tokens); }
  }

  /** Token by token the result shows the edited text, whatever mixture of breaks was stored. */
  lemma {:induction false} TokensShowTheEdit(previous: string, next: string)
    requires CR !in next
    ensures ShownAll(ResultTokens(previous, next)) == next
  {
    hide ResultTokens, Separator, Tokens;
    SeparatorShowsLineFeed(Tokens(previous));
    var r := ResultTokens(previous, next);
    forall i | 0 <= i < |next| ensures r[i].Shown() == next[i] {
      ResultComesFrom(previous, next, i);
      assert next[i] in next;
    }
  }

  /** A carriage return right before a line feed of its own: joined, the two read as one break. */
  ghost predicate Merges(tokens: seq<Token>) {
    exists i :: 0 <= i < |tokens| - 1 && tokens[i] == One(CR) && tokens[i + 1] == One(LF)
  }

  lemma {:induction false} JoinedTokens(tokens: seq<Token>)
    ensures !Merges(tokens) ==> Tokens(Join(tokens)) == tokens
    ensures |Tokens(Join(tokens))| <= |tokens|
    ensures Merges(tokens) ==> |Tokens(Join(tokens))| < |tokens|
  {
    if tokens != [] {
      if |tokens| > 1 && tokens[0] == One(CR) && tokens[1] == One(LF) {
        JoinedTokens(tokens[2..]);
        FirstTwoMerge(tokens);
      } else {
        hide Merges, Join, Tokens;
        JoinedTokens(tokens[1..]);
        FirstStands(tokens);
        MergesLater(tokens);
        assert tokens == [tokens[0]] + tokens[1..];
      }
    }
  }

  lemma {:induction false} FirstTwoMerge(tokens: seq<Token>)
    requires |tokens| > 1 && tokens[0] == One(CR) && tokens[1] == One(LF)
    ensures Tokens(Join(tokens)) == [CrLf] + Tokens(Join(tokens[2..]))
  {
    assert tokens[1..][1..] == tokens[2..];
    assert Join(tokens[1..]) == [LF] + Join(tokens[2..]);
    assert Join(tokens) == [CR, LF] + Join(tokens[2..]);
    assert Join(tokens)[2..] == Join(tokens[2..]);
  }

  lemma {:induction false} FirstStands(tokens: seq<Token>)
    requires tokens != [] && !(|tokens| > 1 && tokens[0] == One(CR) && tokens[1] == One(LF))
    ensures Tokens(Join(tokens)) == [tokens[0]] + Tokens(Join(tokens[1..]))
  {
    var rest := Join(tokens[1..]);
    JoinStart(tokens[1..]);
    assert Join(tokens) == tokens[0].Text() + rest;
    assert Join(tokens)[|tokens[0].Text()|..] == rest;
  }

  lemma {:induction false} JoinStart(tokens: seq<Token>)
    ensures Join(tokens) != "" && Join(tokens)[0] == LF ==> tokens != [] && tokens[0] == One(LF)
  {
  }

  lemma MergesLater(tokens: seq<Token>)
    requires tokens != [] && !(|tokens| > 1 && tokens[0] == One(CR) && tokens[1] == One(LF))
    ensures Merges(tokens) <==> Merges(tokens[1..])
  {
    if Merges(tokens) {
      var i :| 0 <= i < |tokens| - 1 && tokens[i] == One(CR) && tokens[i + 1] == One(LF);
      assert tokens[1..][i - 1] == One(CR) && tokens[1..][i] == One(LF);
    }
    if Merges(tokens[1..]) {
      var i :| 0 <= i < |tokens[1..]| - 1 && tokens[1..][i] == One(CR) && tokens[1..][i + 1] == One(LF);
      assert tokens[i + 1] == One(CR) && tokens[i + 2] == One(LF);
    }
  }

  lemma ShownHasNoReturn(tokens: seq<Token>)
    ensures CR !in ShownAll(tokens)
  {
  }

  /** The edited text is what the result displays, unless it holds a carriage return or two tokens of the result merge. */
  lemma {:induction false} DisplaysTheEditUnlessBreaksMerge(previous: string, next: string)
    ensures Display(Join(ResultTokens(previous, next))) == next
       <==> CR !in next && !Merges(ResultTokens(previous, next))
  {
    hide ResultTokens, Join, Tokens, Merges, ShownAll;
    var r := ResultTokens(previous, next);
    JoinedTokens(r);
    ShownHasNoReturn(Tokens(Join(r)));
    if CR !in next && !Merges(r) { TokensShowTheEdit(previous, next); }
  }

  /** Only breaks of the stored text are used, and a line feed when it has none. */
  lemma {:induction false} ResultUsesStoredBreaks(previous: string, next: string, t: Token)
    requires CR !in next && t in ResultTokens(previous, next) && t.Break()
    ensures t in Tokens(previous) || (t == One(LF) && Breaks(Tokens(previous)) == [])
  {
    hide ResultTokens, Tokens, Separator, Breaks;
    var r := ResultTokens(previous, next);
    var i :| 0 <= i < |r| && r[i] == t;
    ResultComesFrom(previous, next, i);
    SeparatorShowsLineFeed(Tokens(previous));
    assert next[i] in next;
  }

  lemma {:induction false} NoBreaksMeansNone(tokens: seq<Token>, t: Token)
    requires Breaks(tokens) == [] && t in tokens
    ensures !t.Break()
  {
    if t != tokens[0] { NoBreaksMeansNone(tokens[1..], t); }
  }

  /** Stored text without both a lone carriage return and a lone line feed is edited faithfully. */
  lemma {:induction false} UnmixedTextIsEditedFaithfully(previous: string, next: string)
    requires CR !in next
    requires !(One(CR) in Tokens(previous) && One(LF) in Tokens(previous))
    ensures Display(Join(ResultTokens(previous, next))) == next
  {
    hide ResultTokens, Tokens, Join, Breaks;
    var r := ResultTokens(previous, next);
    if Merges(r) {
      ResultUsesStoredBreaks(previous, next, One(CR));
      ResultUsesStoredBreaks(previous, next, One(LF));
      if Breaks(Tokens(previous)) == [] { NoBreaksMeansNone(Tokens(previous), One(CR)); }
    }
    DisplaysTheEditUnlessBreaksMerge(previous, next);
  }

  /** Text with one kind of break keeps to it, and displays exactly as edited. */
  lemma {:induction false} OneKindOfBreakIsKept(previous: string, next: string, kind: Token)
    requires CR !in next && kind in Tokens(previous) && kind.Break()
    requires forall t :: t in Tokens(previous) && t.Break() ==> t == kind
    ensures Display(Join(ResultTokens(previous, next))) == next
    ensures Tokens(Join(ResultTokens(previous, next))) == ResultTokens(previous, next)
    ensures forall t :: t in Tokens(Join(ResultTokens(previous, next))) && t.Break() ==> t == kind
  {
    hide ResultTokens, Tokens, Join, Breaks;
    var r := ResultTokens(previous, next);
    UnmixedTextIsEditedFaithfully(previous, next);
    DisplaysTheEditUnlessBreaksMerge(previous, next);
    JoinedTokens(r);
    forall t | t in r && t.Break() ensures t == kind {
      ResultUsesStoredBreaks(previous, next, t);
      if Breaks(Tokens(previous)) == [] { NoBreaksMeansNone(Tokens(previous), kind); }
    }
  }

  lemma MixedTokens()
    ensures Tokens([CR, 'x', LF]) == [One(CR), One('x'), One(LF)]
    ensures Display([CR, 'x', LF]) == [LF, 'x', LF]
  {
    assert [CR, 'x', LF][1..] == ['x', LF] && ['x', LF][1..] == [LF] && [LF][1..] == "";
    assert Tokens([LF]) == [One(LF)];
    assert Tokens(['x', LF]) == [One('x'), One(LF)];
  }

  lemma MixedKept()
    ensures Kept([LF, 'x', LF], [LF, LF]) == (1, 1)
  {
    var shown, next := [LF, 'x', LF], [LF, LF];
    assert CommonSuffix(shown, next, 1) == 1;
    assert CommonPrefix(shown, next, 1, 1) == 1;
  }

  lemma MixedJoin()
    ensures Join([One(CR), One(LF)]) == [CR, LF] && Display([CR, LF]) == [LF]
  {
    assert [One(CR), One(LF)][1..] == [One(LF)];
    JoinOne(One(LF));
    assert [CR, LF][2..] == "";
    assert Tokens([CR, LF]) == [CrLf];
  }

  /** With mixed breaks a kept carriage return can land before a kept line feed, and two breaks become one. */
  lemma {:induction false} MixedBreaksCanMerge()
    ensures var result := Join(ResultTokens([CR, 'x', LF], [LF, LF]));
            result == [CR, LF] && Display(result) == [LF]
  {
    hide Tokens, Display, Kept, Join, Filled, Breaks, Separator;
    MixedTokens();
    MixedKept();
    MixedJoin();
    var tokens, next := Tokens([CR, 'x', LF]), [LF, LF];
    assert next[1..1] == "";
    FilledNone(Breaks(tokens[1..2]), Separator(tokens));
    assert Edited(tokens, next, 1, 1) == [One(CR), One(LF)];
  }

  lemma EndCharacters(a: string, b: string, n: nat, j: nat)
    requires j < n <= |a| && n <= |b| && SameEnd(a, b, n)
    ensures a[|a| - j - 1] == b[|b| - j - 1]
  {
    assert a[|a| - j - 1] == b[|a| - j - 1 + |b| - |a|];
  }

  lemma SuffixIsLongest(shown: string, next: string, k: nat)
    requires k <= |shown| && k <= |next| && SameEnd(shown, next, k)
    ensures k <= Kept(shown, next).1
  {
    hide CommonSuffix, CommonPrefix, SameEnd;
    EmptyEnd(shown, next);
    var suffix := CommonSuffix(shown, next, 0);
    if suffix < k { EndCharacters(shown, next, k, suffix); }
  }

  lemma PrefixIsLongest(shown: string, next: string, k: nat)
    requires k <= |shown| && k <= |next| && SameStart(shown, next, k)
    requires k + Kept(shown, next).1 <= Min(|shown|, |next|)
    ensures k <= Kept(shown, next).0
  {
    hide CommonSuffix, CommonPrefix;
  }

  lemma LongerEnd(r: seq<Token>, n: nat, k: nat)
    requires k <= n <= |r|
    ensures r[|r| - k..] == r[|r| - n..][n - k..]
  {
  }

  lemma {:induction false} EditedEnds(tokens: seq<Token>, next: string, prefix: nat, suffix: nat, k: nat)
    requires prefix + suffix <= |tokens| && prefix + suffix <= |next| && k <= suffix
    ensures Edited(tokens, next, prefix, suffix)[|next| - k..] == tokens[|tokens| - k..]
  {
    hide Edited;
    LongerEnd(Edited(tokens, next, prefix, suffix), suffix, k);
    LongerEnd(tokens, suffix, k);
  }

  /** Whatever the edited text has in common with the end of the shown text is stored as it was. */
  lemma {:induction false} CommonEndsAreKept(previous: string, next: string, k: nat)
    requires k <= |Display(previous)| && k <= |next| && SameEnd(Display(previous), next, k)
    ensures ResultTokens(previous, next)[|next| - k..] == Tokens(previous)[|Tokens(previous)| - k..]
  {
    hide Filled, Tokens, Breaks, Separator, Kept, Display, SameEnd, SameStart, Edited;
    var shown, tokens := Display(previous), Tokens(previous);
    if shown != next {
      SuffixIsLongest(shown, next, k);
      EditedEnds(tokens, next, Kept(shown, next).0, Kept(shown, next).1, k);
    }
  }

  /** The same for the start, as far as the kept end leaves room. */
  lemma {:induction false} CommonStartsAreKept(previous: string, next: string, k: nat)
    requires k <= |Display(previous)| && k <= |next| && SameStart(Display(previous), next, k)
    requires Display(previous) != next ==> k + Kept(Display(previous), next).1 <= Min(|Display(previous)|, |next|)
    ensures ResultTokens(previous, next)[..k] == Tokens(previous)[..k]
  {
    hide Filled, Tokens, Breaks, Separator, Kept, Display, SameEnd, SameStart, Edited;
    var shown, tokens := Display(previous), Tokens(previous);
    if shown != next {
      PrefixIsLongest(shown, next, k);
      var prefix := Kept(shown, next).0;
      var r := ResultTokens(previous, next);
      assert r == Edited(tokens, next, prefix, Kept(shown, next).1);
      assert r[..k] == r[..prefix][..k];
    }
  }

  // ---- Exactly which stored texts are edited faithfully ----

  /** The first break is a line feed of its own, and some other break is a carriage return of its own. */
  ghost predicate LfFirst(tokens: seq<Token>) {
    Breaks(tokens) != [] && Breaks(tokens)[0] == One(LF) && One(CR) in tokens
  }

  /** A line feed of its own, right behind a character that is no break, has a carriage return of its own before it. */
  ghost predicate LfAfterReturn(tokens: seq<Token>) {
    exists c, q :: ReturnThenFeed(tokens, c, q)
  }

  predicate ReturnThenFeed(tokens: seq<Token>, c: int, q: int) {
    0 <= c < q < |tokens| && tokens[c] == One(CR) && tokens[q] == One(LF) && !tokens[q - 1].Break()
  }

  ghost predicate Mixed(previous: string) { LfFirst(Tokens(previous)) || LfAfterReturn(Tokens(previous)) }

  lemma {:induction false} TokensNeverMerge(s: string)
    ensures !Merges(Tokens(s))
  {
    hide Merges, Tokens, Join;
    JoinTokens(s);
    JoinedTokens(Tokens(s));
  }

  /** The first break of a list, and where it is. */
  lemma {:induction false} FirstBreakAt(tokens: seq<Token>) returns (y: nat)
    requires Breaks(tokens) != []
    ensures y < |tokens| && tokens[y] == Breaks(tokens)[0] && tokens[y].Break() && forall z :: 0 <= z < y ==> !tokens[z].Break()
  {
    if tokens[0].Break() {
      y := 0;
    } else {
      var h := FirstBreakAt(tokens[1..]);
      y := h + 1;
      assert forall z :: 1 <= z <= h ==> tokens[z] == tokens[1..][z - 1];
    }
  }

  /** Two breaks in a row, and where they are. */
  lemma {:induction false} NextBreakAt(tokens: seq<Token>, c: nat) returns (x: nat, y: nat)
    requires c + 1 < |Breaks(tokens)|
    ensures x < y < |tokens| && tokens[x] == Breaks(tokens)[c] && tokens[y] == Breaks(tokens)[c + 1]
    ensures forall z :: x < z < y ==> !tokens[z].Break()
  {
    var rest := tokens[1..];
    assert forall z :: 1 <= z < |tokens| ==> tokens[z] == rest[z - 1];
    if tokens[0].Break() && c == 0 {
      var h := FirstBreakAt(rest);
      x, y := 0, h + 1;
    } else {
      var g, h := NextBreakAt(rest, if tokens[0].Break() then c - 1 else c);
      x, y := g + 1, h + 1;
    }
  }

  lemma {:induction false} BreaksHold(tokens: seq<Token>, t: Token)
    requires t in tokens && t.Break()
    ensures t in Breaks(tokens)
  {
    if t != tokens[0] { BreaksHold(tokens[1..], t); }
  }

  /** The breaks an inserted text gets: the removed ones in turn, then the separator. */
  lemma {:induction false} FilledStart(text: string, breaks: seq<Token>, separator: Token)
    requires text != "" && CR !in text && Filled(text, breaks, separator)[0] == One(LF)
    ensures if breaks != [] then breaks[0] == One(LF) else separator == One(LF)
  {
  }

  lemma {:induction false} FilledReturn(text: string, breaks: seq<Token>, separator: Token, i: nat)
    requires i < |text| && CR !in text && Filled(text, breaks, separator)[i] == One(CR)
    ensures text[i] == LF && (One(CR) in breaks || separator == One(CR))
  {
    FilledFills(text, breaks, separator, i);
    assert text[i] in text;
  }

  lemma {:induction false} FilledPair(text: string, breaks: seq<Token>, separator: Token, i: nat) returns (c: nat)
    requires i + 1 < |text| && CR !in text
    requires Filled(text, breaks, separator)[i] == One(CR) && Filled(text, breaks, separator)[i + 1] == One(LF)
    ensures (c + 1 < |breaks| && breaks[c] == One(CR) && breaks[c + 1] == One(LF))
         || (separator == One(LF) && One(CR) in breaks)
  {
    assert text[0] in text;
    var rest := if text[0] == LF && breaks != [] then breaks[1..] else breaks;
    if i > 0 {
      var d := FilledPair(text[1..], rest, separator, i - 1);
      c := if rest == breaks then d else d + 1;
      assert One(CR) in rest ==> One(CR) in breaks;
    } else {
      c := 0;
      FilledReturn(text, breaks, separator, 0);
      FilledStart(text[1..], rest, separator);
    }
  }

  lemma NotTogether(tokens: seq<Token>, i: nat, j: nat)
    requires !Merges(tokens) && i + 1 == j < |tokens| && tokens[i] == One(CR)
    ensures tokens[j] != One(LF)
  {
  }

  lemma MergeAt(tokens: seq<Token>) returns (i: nat)
    requires Merges(tokens)
    ensures i + 1 < |tokens| && tokens[i] == One(CR) && tokens[i + 1] == One(LF)
  {
    i :| 0 <= i < |tokens| - 1 && tokens[i] == One(CR) && tokens[i + 1] == One(LF);
  }

  lemma {:induction false} GapMeansMixed(tokens: seq<Token>, from: nat, end: nat, c: nat)
    requires from <= end <= |tokens| && !Merges(tokens)
    requires c + 1 < |Breaks(tokens[from..end])|
    requires Breaks(tokens[from..end])[c] == One(CR) && Breaks(tokens[from..end])[c + 1] == One(LF)
    ensures LfAfterReturn(tokens)
  {
    hide Merges, Breaks;
    var part := tokens[from..end];
    var x, y := NextBreakAt(part, c);
    assert tokens[from + x] == One(CR) && tokens[from + y] == One(LF);
    if y == x + 1 {
      NotTogether(tokens, from + x, from + y);
    } else {
      assert !part[y - 1].Break() && tokens[from + y - 1] == part[y - 1];
      assert ReturnThenFeed(tokens, from + x, from + y);
    }
  }

  /** The last kept character of the start meets the inserted text. */
  lemma {:induction false} SeamBefore(previous: string, next: string, p: nat, s: nat)
    requires CR !in next && (p, s) == Kept(Display(previous), next) && Display(previous) != next
    requires 0 < p < |next| - s && ResultTokens(previous, next)[p - 1] == One(CR) && ResultTokens(previous, next)[p] == One(LF)
    ensures Mixed(previous)
  {
    hide Tokens, Kept, Filled, Breaks, Merges, Edited, Display, SameStart, SameEnd;
    var tokens := Tokens(previous);
    var text, part := next[p..|next| - s], tokens[p..|tokens| - s];
    EditedAt(tokens, next, p, s, p - 1);
    EditedAt(tokens, next, p, s, p);
    TextHasNoReturn(next, p, |next| - s);
    FilledStart(text, Breaks(part), Separator(tokens));
    if Breaks(part) != [] {
      var y := FirstBreakAt(part);
      NotAdjacent(previous, p - 1);
      assert tokens[p + y] == part[y];
      if y > 0 { assert tokens[p + y - 1] == part[y - 1]; }
      assert ReturnThenFeed(tokens, p - 1, p + y);
    } else {
      BreaksHold(tokens, One(CR));
    }
  }

  lemma {:induction false} ShownAt(previous: string, i: nat)
    requires i < |Tokens(previous)|
    ensures Display(previous)[i] == Tokens(previous)[i].Shown()
  {
  }

  lemma TextHasNoReturn(next: string, from: nat, end: nat)
    requires CR !in next && from <= end <= |next|
    ensures CR !in next[from..end]
  {
  }

  lemma {:induction false} NotAdjacent(previous: string, i: nat)
    requires i + 1 < |Tokens(previous)|
    ensures !(Tokens(previous)[i] == One(CR) && Tokens(previous)[i + 1] == One(LF))
  {
    TokensNeverMerge(previous);
  }

  /** Where each token of an edited text comes from. */
  lemma EditedAt(tokens: seq<Token>, next: string, p: nat, s: nat, i: nat)
    requires p + s <= |tokens| && p + s <= |next| && i < |next|
    ensures Edited(tokens, next, p, s)[i]
         == if i < p then tokens[i]
            else if i < |next| - s
            then Filled(next[p..|next| - s], Breaks(tokens[p..|tokens| - s]), Separator(tokens))[i - p]
            else tokens[i - |next| + |tokens|]
  {
    hide Filled, Breaks, Separator;
  }

  lemma {:induction false} SeamInside(previous: string, next: string, p: nat, s: nat, i: nat)
    requires CR !in next && (p, s) == Kept(Display(previous), next) && Display(previous) != next
    requires p <= i && i + 1 < |next| - s
    requires ResultTokens(previous, next)[i] == One(CR) && ResultTokens(previous, next)[i + 1] == One(LF)
    ensures Mixed(previous)
  {
    hide Tokens, Kept, Filled, Breaks, Merges, Edited, Display, SameStart, SameEnd;
    var tokens := Tokens(previous);
    var text, part := next[p..|next| - s], tokens[p..|tokens| - s];
    EditedAt(tokens, next, p, s, i);
    EditedAt(tokens, next, p, s, i + 1);
    TextHasNoReturn(next, p, |next| - s);
    var c := FilledPair(text, Breaks(part), Separator(tokens), i - p);
    TokensNeverMerge(previous);
    if c + 1 < |Breaks(part)| && Breaks(part)[c] == One(CR) && Breaks(part)[c + 1] == One(LF) {
      GapMeansMixed(tokens, p, |tokens| - s, c);
    } else {
      assert One(CR) in part && One(CR) in tokens;
      BreaksHold(tokens, One(CR));
    }
  }

  lemma {:induction false} GapIsMixed(previous: string, c: nat, q: nat)
    requires c < q < |Tokens(previous)|
    requires Tokens(previous)[c] == One(CR) && Tokens(previous)[q] == One(LF) && !Tokens(previous)[q - 1].Break()
    ensures Mixed(previous)
  {
    assert ReturnThenFeed(Tokens(previous), c, q);
  }

  /** The inserted text, or the last kept character of the start, meets the kept end. */
  lemma {:induction false} SeamBehind(previous: string, next: string, p: nat, s: nat, i: nat)
    requires CR !in next && (p, s) == Kept(Display(previous), next) && Display(previous) != next
    requires i + 1 == |next| - s < |next| && i + 1 >= p
    requires ResultTokens(previous, next)[i] == One(CR) && ResultTokens(previous, next)[i + 1] == One(LF)
    ensures Mixed(previous)
  {
    hide Tokens, Filled, Breaks, Merges, Kept, Edited, Display, SameStart, SameEnd, Mixed, Separator;
    var q := |Tokens(previous)| - s;
    EditedAt(Tokens(previous), next, p, s, i + 1);
    var c := ReturnBehind(previous, next, p, s, i);
    ShownAt(previous, q - 1);
    GapIsMixed(previous, c, q);
  }

  /** A carriage return among the inserted breaks comes from a removed one, or from the first break of the stored text. */
  lemma {:induction false} ReturnInserted(tokens: seq<Token>, next: string, p: nat, q: nat, end: nat, i: nat) returns (c: nat)
    requires CR !in next && p <= q < |tokens| && tokens[q] == One(LF) && p <= i < end <= |next|
    requires Filled(next[p..end], Breaks(tokens[p..q]), Separator(tokens))[i - p] == One(CR)
    ensures c < q && tokens[c] == One(CR) && next[i] == LF
  {
    hide Filled, Breaks;
    var part := tokens[p..q];
    TextHasNoReturn(next, p, end);
    FilledReturn(next[p..end], Breaks(part), Separator(tokens), i - p);
    assert next[p..end][i - p] == next[i];
    if One(CR) in Breaks(part) {
      assert One(CR) in part;
      var h :| 0 <= h < |part| && part[h] == One(CR);
      c := p + h;
    } else {
      BreaksHold(tokens, One(LF));
      c := FirstBreakAt(tokens);
      FirstIsNoLater(tokens, c, q);
    }
  }

  lemma FirstIsNoLater(tokens: seq<Token>, c: nat, q: nat)
    requires c < |tokens| && q < |tokens| && tokens[q] == One(LF) && forall z :: 0 <= z < c ==> !tokens[z].Break()
    ensures c <= q
  {
  }

  /** A carriage return at the seam has a carriage return before the kept end. */
  lemma {:induction false} ReturnBehind(previous: string, next: string, p: nat, s: nat, i: nat) returns (c: nat)
    requires CR !in next && (p, s) == Kept(Display(previous), next) && Display(previous) != next
    requires i + 1 == |next| - s < |next| && i + 1 >= p && Tokens(previous)[|Tokens(previous)| - s] == One(LF)
    requires ResultTokens(previous, next)[i] == One(CR)
    ensures c < |Tokens(previous)| - s && Tokens(previous)[c] == One(CR) && next[i] == LF
  {
    hide Tokens, Filled, Breaks, Merges, Kept, Edited, Display, SameStart, SameEnd, Separator;
    var tokens := Tokens(previous);
    EditedAt(tokens, next, p, s, i);
    if i < p {
      c := i;
      ShownAt(previous, i);
      StartCharacter(Display(previous), next, p, i);
    } else {
      c := ReturnInserted(tokens, next, p, |tokens| - s, |next| - s, i);
    }
  }

  lemma {:induction false} UnmixedNeverMerges(previous: string, next: string)
    requires CR !in next && !Mixed(previous)
    ensures !Merges(ResultTokens(previous, next))
  {
    hide Tokens, Filled, Breaks, Kept, Mixed, Edited, Merges, Display;
    if Merges(ResultTokens(previous, next)) {
      TokensNeverMerge(previous);
      var i := MergeAt(ResultTokens(previous, next));
      var (p, s) := Kept(Display(previous), next);
      var n := |Tokens(previous)|;
      EditedAt(Tokens(previous), next, p, s, i);
      EditedAt(Tokens(previous), next, p, s, i + 1);
      if i + 1 < p {
        NotAdjacent(previous, i);
      } else if i + 1 == p && p < |next| - s {
        SeamBefore(previous, next, p, s);
      } else if p <= i && i + 1 < |next| - s {
        SeamInside(previous, next, p, s, i);
      } else if i + 1 == |next| - s {
        SeamBehind(previous, next, p, s, i);
      } else {
        NotAdjacent(previous, i - |next| + n);
      }
    }
  }

  lemma {:induction false} KeptIs(shown: string, next: string, p: nat, s: nat)
    requires p + s <= |shown| && p + s == Min(|shown|, |next|) && s < |shown| && s < |next|
    requires SameStart(shown, next, p) && SameEnd(shown, next, s)
    requires shown[|shown| - s - 1] != next[|next| - s - 1]
    ensures Kept(shown, next) == (p, s)
  {
    hide CommonSuffix, CommonPrefix, SameEnd, SameStart;
    EmptyEnd(shown, next);
    EmptyStart(shown, next);
    var suffix := CommonSuffix(shown, next, 0);
    if s < suffix { EndCharacters(shown, next, suffix, s); }
    if suffix < s { EndCharacters(shown, next, s, suffix); }
    var prefix := CommonPrefix(shown, next, p, 0);
    if prefix < p { StartCharacter(shown, next, p, prefix); }
  }

  lemma StartCharacter(a: string, b: string, n: nat, j: nat)
    requires j < n <= |a| && n <= |b| && SameStart(a, b, n)
    ensures a[j] == b[j]
  {
  }

  /** The edit that goes wrong when the separator is a line feed: a new line right behind a carriage return. */
  lemma {:induction false} NewLineBehindReturn(previous: string, c: nat)
    requires LfFirst(Tokens(previous)) && c < |Tokens(previous)| && Tokens(previous)[c] == One(CR)
    ensures var shown := Display(previous);
            var next := shown[..c + 1] + [LF, 'x'] + shown[c + 1..];
            CR !in next && Merges(ResultTokens(previous, next))
  {
    hide Tokens, Kept, Breaks, SameStart, SameEnd;
    var tokens, shown := Tokens(previous), Display(previous);
    var next := shown[..c + 1] + [LF, 'x'] + shown[c + 1..];
    var s := |tokens| - c - 1;
    DisplayHasNoReturn(previous);
    assert SameStart(shown, next, c + 1) && SameEnd(shown, next, s) by { AroundInsertion(shown, c + 1, [LF, 'x']); }
    assert shown[c] == tokens[c].Shown();
    KeptIs(shown, next, c + 1, s);
    EditedAt(tokens, next, c + 1, s, c);
    EditedAt(tokens, next, c + 1, s, c + 1);
    assert next[c + 1..|next| - s] == [LF, 'x'];
    assert tokens[c + 1..|tokens| - s] == [] && Breaks([]) == [] by { NoBreaksInNothing(); }
    assert Filled([LF, 'x'], [], Separator(tokens))[0] == One(LF);
    var r := ResultTokens(previous, next);
    assert r[c] == One(CR) && r[c + 1] == One(LF);
  }

  lemma NoBreaksInNothing()
    ensures Breaks([]) == []
  {
  }

  lemma DisplayHasNoReturn(previous: string)
    ensures CR !in Display(previous)
  {
    ShownHasNoReturn(Tokens(previous));
  }

  lemma AroundInsertion(shown: string, k: nat, inserted: string)
    requires k <= |shown|
    ensures var next := shown[..k] + inserted + shown[k..];
            SameStart(shown, next, k) && SameEnd(shown, next, |shown| - k)
  {
  }

  lemma AroundDeletion(shown: string, k: nat, q: nat)
    requires k <= q <= |shown|
    ensures var next := shown[..k] + shown[q..];
            SameStart(shown, next, k) && SameEnd(shown, next, |shown| - q)
  {
  }

  /** The edit that goes wrong otherwise: deleting what lies between the carriage return and the line feed. */
  lemma {:induction false} DeletedBetween(previous: string, c: nat, q: nat)
    requires c < q < |Tokens(previous)|
    requires Tokens(previous)[c] == One(CR) && Tokens(previous)[q] == One(LF) && !Tokens(previous)[q - 1].Break()
    ensures var shown := Display(previous);
            var next := shown[..c + 1] + shown[q..];
            CR !in next && Merges(ResultTokens(previous, next))
  {
    hide Tokens, Kept, Breaks, Filled, SameStart, SameEnd;
    var tokens, shown := Tokens(previous), Display(previous);
    var next := shown[..c + 1] + shown[q..];
    var s := |tokens| - q;
    DisplayHasNoReturn(previous);
    assert SameStart(shown, next, c + 1) && SameEnd(shown, next, s) by { AroundDeletion(shown, c + 1, q); }
    assert shown[c] == tokens[c].Shown() && shown[q - 1] == tokens[q - 1].Shown();
    KeptIs(shown, next, c + 1, s);
    EditedAt(tokens, next, c + 1, s, c);
    EditedAt(tokens, next, c + 1, s, c + 1);
    var r := ResultTokens(previous, next);
    assert r[c] == One(CR) && r[c + 1] == One(LF);
  }

  lemma {:induction false} MixedTextHasABadEdit(previous: string) returns (next: string)
    requires Mixed(previous)
    ensures CR !in next && Merges(ResultTokens(previous, next))
  {
    hide Tokens, ResultTokens, Display, Merges, Breaks, LfFirst, LfAfterReturn;
    var shown := Display(previous);
    if LfFirst(Tokens(previous)) {
      var c := ReturnOf(Tokens(previous));
      NewLineBehindReturn(previous, c);
      next := shown[..c + 1] + [LF, 'x'] + shown[c + 1..];
    } else {
      var c, q := ReturnAndFeedOf(Tokens(previous));
      DeletedBetween(previous, c, q);
      next := shown[..c + 1] + shown[q..];
    }
  }

  lemma ReturnOf(tokens: seq<Token>) returns (c: nat)
    requires LfFirst(tokens)
    ensures c < |tokens| && tokens[c] == One(CR)
  {
    c :| 0 <= c < |tokens| && tokens[c] == One(CR);
  }

  lemma ReturnAndFeedOf(tokens: seq<Token>) returns (c: nat, q: nat)
    requires LfAfterReturn(tokens)
    ensures c < q < |tokens| && tokens[c] == One(CR) && tokens[q] == One(LF) && !tokens[q - 1].Break()
  {
    var i, j :| ReturnThenFeed(tokens, i, j);
    c, q := i, j;
  }

  /**
   * Every edit without carriage returns is displayed as edited, if and only if the stored text is not mixed: neither is
   * its first break a lone line feed with a lone carriage return behind it, nor does a lone line feed that follows a
   * character have a lone carriage return before it.
   */
  lemma {:induction false} FaithfulExactlyWhenUnmixed(previous: string)
    ensures (forall next: string :: CR !in next ==> Display(Join(ResultTokens(previous, next))) == next) <==> !Mixed(previous)
  {
    hide Tokens, ResultTokens, Join, Display, Merges, Mixed;
    if Mixed(previous) {
      var next := MixedTextHasABadEdit(previous);
      DisplaysTheEditUnlessBreaksMerge(previous, next);
      assert Display(Join(ResultTokens(previous, next))) != next;
    } else {
      forall next: string | CR !in next ensures Display(Join(ResultTokens(previous, next))) == next {
        UnmixedNeverMerges(previous, next);
        DisplaysTheEditUnlessBreaksMerge(previous, next);
      }
    }
  }
}
