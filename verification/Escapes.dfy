/** Escaping user input (Escape in shared/markup/markup.go): what it is for, and exactly when
    it achieves it. */
module Escapes {
  import opened Common
  import opened Decimals
  import opened Texts
  import opened Markup

  // ----- escaping, and when it keeps braces apart

  /** An invisible character that keeps two braces apart. */
  const WORD_JOINER: char := '\U{2060}'

  /** strings.ReplaceAll, left to right without overlap. */
  function Escape(s: string): string {
    if Opens(s, '{') then ['{', WORD_JOINER, '{'] + Escape(s[2..])
    else if s == "" then ""
    else [s[0]] + Escape(s[1..])
  }

  /** Three in a row at `i`. */
  predicate TripleAt(s: string, i: nat) {
    i + 2 < |s| && s[i] == '{' && s[i + 1] == '{' && s[i + 2] == '{'
  }

  predicate Triple(s: string) {
    exists i: nat :: i < |s| && TripleAt(s, i)
  }

  lemma {:induction false} EscapeSeparates(s: string)
    ensures Single(Escape(s), '{') <==> !Triple(s)
    ensures Escape(s) != "" <==> s != ""
    ensures s != "" ==> Escape(s)[0] == s[0]
    decreases |s|
  {
    if Opens(s, '{') {
      var rest := s[2..];
      EscapeSeparates(rest);
      var e := Escape(rest);
      assert Escape(s) == ['{', WORD_JOINER, '{'] + e;
      assert Triple(s) <==> (rest != "" && rest[0] == '{') || Triple(rest) by {
        TripleSplits(s);
      }
      assert Single(Escape(s), '{') <==> (e == "" || e[0] != '{') && Single(e, '{') by {
        SingleSplits(['{', WORD_JOINER, '{'], e);
      }
    } else if s != "" {
      var rest := s[1..];
      EscapeSeparates(rest);
      TripleAfter(s);
      SingleSplits([s[0]], Escape(rest));
    }
  }

  lemma SingleSplits(a: string, b: string)
    requires a != "" && Single(a, '{')
    ensures Single(a + b, '{') <==> (b == "" || a[|a| - 1] != '{' || b[0] != '{') && Single(b, '{')
  {
    var s := a + b;
    if Single(s, '{') {
      assert b != "" ==> s[|a| - 1] == a[|a| - 1] && s[|a| - 1 + 1] == b[0];
      forall i | 0 <= i < |b| - 1
        ensures !(b[i] == '{' && b[i + 1] == '{')
      {
        assert s[|a| + i] == b[i] && s[|a| + i + 1] == b[i + 1];
      }
    }
  }

  lemma TripleLater(s: string, k: nat, i: nat)
    requires k <= |s|
    ensures TripleAt(s[k..], i) <==> TripleAt(s, k + i)
  {
  }

  lemma TripleSplits(s: string)
    requires Opens(s, '{')
    ensures Triple(s) <==> (s[2..] != "" && s[2] == '{') || Triple(s[2..])
  {
    if Triple(s) {
      var i: nat :| i < |s| && TripleAt(s, i);
      if i >= 2 {
        TripleLater(s, 2, i - 2);
        assert TripleAt(s[2..], i - 2);
      }
    }
    if s[2..] != "" && s[2] == '{' {
      assert TripleAt(s, 0);
    }
    if Triple(s[2..]) {
      var i: nat :| i < |s[2..]| && TripleAt(s[2..], i);
      TripleLater(s, 2, i);
      assert TripleAt(s, 2 + i);
    }
  }

  lemma TripleAfter(s: string)
    requires s != "" && !Opens(s, '{')
    ensures Triple(s) <==> Triple(s[1..])
  {
    if Triple(s) {
      var i: nat :| i < |s| && TripleAt(s, i);
      TripleLater(s, 1, i - 1);
      assert TripleAt(s[1..], i - 1);
    }
    if Triple(s[1..]) {
      var i: nat :| i < |s[1..]| && TripleAt(s[1..], i);
      TripleLater(s, 1, i);
      assert TripleAt(s, 1 + i);
    }
  }

  predicate OnlyText(tokens: seq<Token>) {
    forall i :: 0 <= i < |tokens| ==> tokens[i].Text? || tokens[i].Bold?
  }

  lemma {:induction false} NoBracesNoTokens(s: string, buffer: string)
    requires Single(s, '{')
    ensures OnlyText(Scan(s, buffer))
    decreases |s|
  {
    if s != "" {
      match Head(s) {
        case None => NoBracesNoTokens(s[1..], buffer + [s[0]]);
        case Some((_, width)) =>
          assert forall i :: 0 <= i < |s| - width ==> s[width..][i] == s[width + i];
          NoBracesNoTokens(s[width..], "");
      }
    }
  }

  lemma {:induction false} EscapeQuiet(s: string)
    requires '{' !in s
    ensures Escape(s) == s
  {
    if s != "" {
      EscapeQuiet(s[1..]);
    }
  }

  // ----- what escaping does to the pieces of a text

  lemma Associates(a: string, b: string, c: string)
    ensures a + (b + c) == (a + b) + c
  {
  }

  /** Escaping two halves is escaping the whole, unless braces meet where they were cut. */
  lemma {:induction false} EscapeSplits(a: string, b: string)
    requires a == "" || b == "" || a[|a| - 1] != '{' || b[0] != '{'
    ensures Escape(a + b) == Escape(a) + Escape(b)
    decreases |a|
  {
    if a == "" {
      assert a + b == b;
    } else if Opens(a, '{') {
      assert (a + b)[2..] == a[2..] + b;
      EscapeSplits(a[2..], b);
      Associates(['{', WORD_JOINER, '{'], Escape(a[2..]), Escape(b));
    } else {
      assert (a + b)[1..] == a[1..] + b;
      EscapeSplits(a[1..], b);
      Associates([a[0]], Escape(a[1..]), Escape(b));
    }
  }

  lemma {:induction false} EscapeMembers(s: string, c: char)
    requires c != WORD_JOINER
    ensures c in Escape(s) <==> c in s
    decreases |s|
  {
    if Opens(s, '{') {
      EscapeMembers(s[2..], c);
      assert s == ['{', '{'] + s[2..];
    } else if s != "" {
      EscapeMembers(s[1..], c);
      assert s == [s[0]] + s[1..];
    }
  }

  lemma EscapeIs(s: string, plain: string)
    requires '{' !in plain
    ensures Escape(s) == plain <==> s == plain
  {
    EscapeMembers(s, '{');
    if '{' !in s {
      EscapeQuiet(s);
    }
  }

  lemma EscapeFirst(s: string)
    ensures Escape(s) != "" <==> s != ""
    ensures s != "" ==> Escape(s)[0] == s[0]
  {
  }

  /** A character that escaping does not touch. */
  predicate Neutral(c: char) {
    c != '{' && c != WORD_JOINER
  }

  lemma CutEscaped(s: string, c: char)
    requires Neutral(c)
    ensures Cut(Escape(s), c) ==
            match Cut(s, c) case None => None case Some((a, b)) => Some((Escape(a), Escape(b)))
  {
    match Cut(s, c) {
      case None => EscapeMembers(s, c);
      case Some((a, b)) =>
        EscapeSplits(a + [c], b);
        EscapeSplits(a, [c]);
        assert Escape([c]) == [c];
        EscapeMembers(a, c);
        CutAt(Escape(a), c, Escape(b));
    }
  }

  lemma {:induction false} SeekSkips(a: string, b: string, c: char)
    requires c !in a
    ensures Seek(a + b, c) == match Seek(b, c) case None => None case Some(k) => Some(|a| + k)
  {
    if a == "" {
      assert a + b == b;
    } else {
      assert (a + b)[1..] == a[1..] + b;
      SeekSkips(a[1..], b, c);
    }
  }

  /** A doubled neutral character is found where it was, after what escaping made of the text before. */
  predicate FoundEscaped(s: string, c: char) {
    match Seek(s, c)
    case None => Seek(Escape(s), c) == None
    case Some(k) => Seek(Escape(s), c) == Some(|Escape(s[..k])|)
  }

  lemma PairPrefix(s: string, k: nat)
    requires Opens(s, '{') && k + 2 <= |s|
    ensures |Escape(s[..k + 2])| == 3 + |Escape(s[2..][..k])|
  {
    assert Opens(s[..k + 2], '{') && s[..k + 2][2..] == s[2..][..k];
  }

  lemma PairFound(s: string, c: char)
    requires Neutral(c) && Opens(s, '{') && FoundEscaped(s[2..], c)
    ensures FoundEscaped(s, c)
  {
    var rest := s[2..];
    SeekSkips(['{', '{'], rest, c);
    SeekSkips(['{', WORD_JOINER, '{'], Escape(rest), c);
    assert s == ['{', '{'] + rest;
    if Seek(rest, c).Some? {
      PairPrefix(s, Seek(rest, c).value);
    }
  }

  lemma CharPrefix(s: string, k: nat)
    requires s != "" && !Opens(s, '{') && k + 1 <= |s|
    ensures |Escape(s[..k + 1])| == 1 + |Escape(s[1..][..k])|
  {
    assert !Opens(s[..k + 1], '{') && s[..k + 1][1..] == s[1..][..k];
  }

  lemma SeekLater(s: string, rest: string, c: char)
    requires s != "" && s[1..] == rest && !Opens(s, c)
    ensures Seek(s, c) == match Seek(rest, c) case None => None case Some(k) => Some(k + 1)
  {
  }

  lemma OpensEscaped(s: string, c: char)
    requires s != "" && !Opens(s, '{')
    ensures Escape(s) != "" && Escape(s)[1..] == Escape(s[1..])
    ensures Opens(Escape(s), c) <==> Opens(s, c)
  {
    EscapeFirst(s[1..]);
    assert Escape(s) == [s[0]] + Escape(s[1..]);
  }

  lemma CharFound(s: string, c: char)
    requires Neutral(c) && s != "" && !Opens(s, '{') && FoundEscaped(s[1..], c)
    ensures FoundEscaped(s, c)
  {
    var rest := s[1..];
    OpensEscaped(s, c);
    if Opens(s, c) {
      assert s[..0] == "";
    } else {
      SeekLater(s, rest, c);
      SeekLater(Escape(s), Escape(rest), c);
      if Seek(rest, c).Some? {
        CharPrefix(s, Seek(rest, c).value);
      }
    }
  }

  lemma {:induction false} SeekEscaped(s: string, c: char)
    requires Neutral(c)
    ensures FoundEscaped(s, c)
    decreases |s|
  {
    if Opens(s, '{') {
      SeekEscaped(s[2..], c);
      PairFound(s, c);
    } else if s != "" {
      SeekEscaped(s[1..], c);
      CharFound(s, c);
    }
  }

  /** Cutting at a doubled neutral character, escaped or not. */
  lemma EscapedAround(s: string, c: char, k: nat)
    requires Neutral(c) && k + 2 <= |s| && s[k] == s[k + 1] == c
    ensures Escape(s) == Escape(s[..k]) + [c, c] + Escape(s[k + 2..])
  {
    assert s == (s[..k] + [c, c]) + s[k + 2..];
    EscapeSplits(s[..k] + [c, c], s[k + 2..]);
    EscapeSplits(s[..k], [c, c]);
    assert Escape([c, c]) == [c] + Escape([c]) && Escape([c]) == [c] + Escape("");
  }

  // ----- what is read after two braces, and bold text

  /** Two braces before this text make a token. */
  predicate Reads(s: string) {
    match Seek(s, '}')
    case None => false
    case Some(k) =>
      match Cut(s[..k], ':')
      case None => false
      case Some((name, arg)) => arg != "" && TokenOf(name, arg).Some?
  }

  lemma HeadIsReads(s: string)
    ensures Head("{{" + s).Some? <==> Reads(s)
    ensures Head("{{" + s).Some? ==> !Head("{{" + s).value.0.Text? && !Head("{{" + s).value.0.Bold?
  {
    SeekSkips("{{", s, '}');
    match Seek(s, '}') {
      case None =>
      case Some(k) => assert ("{{" + s)[2..k + 2] == s[..k];
    }
  }

  lemma BraceIsNoNumber(s: string)
    requires '{' in s
    ensures ParseInt(s).None?
  {
    var digits := Unsigned(s);
    assert s == digits || s == [s[0]] + digits;
    var i :| 0 <= i < |s| && s[i] == '{';
  }

  lemma TokenEscaped(name: string, arg: string)
    ensures TokenOf(Escape(name), Escape(arg)).Some? <==> TokenOf(name, arg).Some?
  {
    EscapeIs(name, "user");
    EscapeIs(name, "channel");
    EscapeIs(name, "time");
    EscapeIs(name, "url");
    CutEscaped(arg, '|');
    EscapeMembers(arg, '{');
    if '{' in arg {
      BraceIsNoNumber(arg);
      BraceIsNoNumber(Escape(arg));
    } else {
      EscapeQuiet(arg);
    }
    match Cut(arg, '|') {
      case None =>
      case Some((url, _)) => EscapeIs(url, "");
    }
  }

  /** Escaping does not change whether a text completes a token. */
  lemma ReadsEscaped(s: string)
    ensures Reads(Escape(s)) <==> Reads(s)
  {
    SeekEscaped(s, '}');
    match Seek(s, '}') {
      case None =>
      case Some(k) =>
        EscapedAround(s, '}', k);
        assert Escape(s)[..|Escape(s[..k])|] == Escape(s[..k]);
        CutEscaped(s[..k], ':');
        match Cut(s[..k], ':') {
          case None =>
          case Some((name, arg)) =>
            EscapeIs(arg, "");
            TokenEscaped(name, arg);
        }
    }
  }

  /** Bold text at the beginning of the text. */
  predicate BoldAt(s: string) {
    Opens(s, '*') && ParseBold(s).Some?
  }

  function BoldWidth(s: string): (w: nat)
    requires BoldAt(s)
    ensures 4 < w <= |s| && s[w - 1] == '*'
  {
    4 + Seek(s[2..], '*').value
  }

  /** What stands between doubled stars and what follows them, escaped. */
  lemma StarsEscaped(inner: string)
    ensures Seek(inner, '*').Some? && Seek(inner, '*').value > 0
            <==> Seek(Escape(inner), '*').Some? && Seek(Escape(inner), '*').value > 0
    ensures Seek(inner, '*').Some? && Seek(inner, '*').value > 0 ==>
              Escape(inner)[Seek(Escape(inner), '*').value + 2..] == Escape(inner[Seek(inner, '*').value + 2..])
  {
    SeekEscaped(inner, '*');
    match Seek(inner, '*') {
      case None =>
      case Some(k) =>
        EscapeIs(inner[..k], "");
        EscapedAround(inner, '*', k);
    }
  }

  lemma BoldHeadIs(s: string, inner: string)
    requires s == "**" + inner
    ensures BoldAt(s) <==> Head(s).Some?
    ensures BoldAt(s) <==> Seek(inner, '*').Some? && Seek(inner, '*').value > 0
    ensures BoldAt(s) ==>
              Head(s).value.0.Bold? && Head(s).value.1 == BoldWidth(s) && s[BoldWidth(s)..] == inner[Seek(inner, '*').value + 2..]
  {
    assert s[2..] == inner;
    if BoldAt(s) {
      assert s[4 + Seek(inner, '*').value..] == inner[Seek(inner, '*').value + 2..];
    }
  }

  lemma StarsOpen(s: string)
    requires s != "" && s[0] != '{'
    ensures Opens(Escape(s), '*') <==> Opens(s, '*')
    ensures Opens(s, '*') ==> s == "**" + s[2..] && Escape(s) == "**" + Escape(s[2..])
    ensures !Opens(Escape(s), '{')
  {
    EscapeFirst(s[1..]);
    assert Escape(s) == [s[0]] + Escape(s[1..]);
    if Opens(s, '*') {
      assert s[1..][1..] == s[2..] && !Opens(s[1..], '{');
      assert Escape(s[1..]) == ['*'] + Escape(s[2..]);
    }
  }

  /** Bold text stays bold, and what follows it follows. */
  lemma BoldEscaped(s: string)
    requires s != "" && s[0] != '{'
    ensures BoldAt(s) <==> Head(Escape(s)).Some?
    ensures BoldAt(s) ==>
              && Head(Escape(s)).value.0.Bold?
              && Escape(s)[Head(Escape(s)).value.1..] == Escape(s[BoldWidth(s)..])
  {
    StarsOpen(s);
    if Opens(s, '*') {
      BoldHeadIs(s, s[2..]);
      BoldHeadIs(Escape(s), Escape(s[2..]));
      StarsEscaped(s[2..]);
    }
  }

  // ----- exactly when something is still read as a mention

  /** The number of braces in the run that ends here; `carried` stand before the text. */
  function Run(s: string, j: nat, carried: nat): nat
    requires j < |s|
  {
    if s[j] != '{' then 0 else 1 + if j == 0 then carried else Run(s, j - 1, carried)
  }

  /** The character does not belong to bold text. */
  predicate Outside(s: string, j: nat)
    requires j < |s|
    decreases |s|
  {
    if BoldAt(s) then j >= BoldWidth(s) && Outside(s[BoldWidth(s)..], j - BoldWidth(s))
    else j == 0 || Outside(s[1..], j - 1)
  }

  /** Here ends a run of three or another odd number of braces, outside bold text, and two
      braces before the rest of the text make a token. */
  predicate Exposes(s: string, j: nat, carried: nat) {
    && j < |s| && s[j] == '{' && (j + 1 == |s| || s[j + 1] != '{')
    && Run(s, j, carried) % 2 == 1 && Run(s, j, carried) >= 3
    && Head("{{" + s[j + 1..]).Some?
    && Outside(s, j)
  }

  ghost predicate Exposed(s: string, carried: nat) {
    exists j: nat :: Exposes(s, j, carried)
  }

  lemma {:induction false} RunLater(s: string, k: nat, i: nat, carried: nat)
    requires 0 < k && k + i < |s|
    ensures Run(s, k + i, carried) == Run(s[k..], i, Run(s, k - 1, carried))
  {
    if i > 0 && s[k + i] == '{' {
      RunLater(s, k, i - 1, carried);
    }
  }

  lemma {:induction false} RunFresh(s: string, i: nat, carried: nat)
    requires i < |s| && s[0] != '{'
    ensures Run(s, i, carried) == Run(s, i, 0)
  {
    if i > 0 {
      RunFresh(s, i - 1, carried);
    }
  }

  /** After some characters the rest of the text exposes what it exposes on its own, if the
      run of braces at the seam is handed on. */
  lemma ExposesLater(s: string, k: nat, i: nat, carried: nat, handed: nat)
    requires 0 < k <= |s|
    requires handed == Run(s, k - 1, carried) || k == |s| || s[k] != '{'
    requires k + i < |s| ==> (Outside(s, k + i) <==> Outside(s[k..], i))
    ensures Exposes(s, k + i, carried) <==> Exposes(s[k..], i, handed)
  {
    if k + i < |s| {
      RunLater(s, k, i, carried);
      if s[k] != '{' {
        RunFresh(s[k..], i, Run(s, k - 1, carried));
        RunFresh(s[k..], i, handed);
      }
      assert s[k..][i + 1..] == s[k + i + 1..];
    }
  }

  lemma ExposedLater(s: string, k: nat, carried: nat, handed: nat)
    requires 0 < k <= |s|
    requires handed == Run(s, k - 1, carried) || k == |s| || s[k] != '{'
    requires forall i: nat :: k + i < |s| ==> (Outside(s, k + i) <==> Outside(s[k..], i))
    requires forall j: nat :: j < k ==> !Exposes(s, j, carried)
    ensures Exposed(s, carried) <==> Exposed(s[k..], handed)
  {
    if Exposed(s, carried) {
      var j: nat :| Exposes(s, j, carried);
      ExposesLater(s, k, j - k, carried, handed);
    }
    if Exposed(s[k..], handed) {
      var i: nat :| Exposes(s[k..], i, handed);
      ExposesLater(s, k, i, carried, handed);
    }
  }

  lemma OnlyTextSplits(buffer: string, token: Token, rest: seq<Token>)
    ensures OnlyText(Flush(buffer) + [token] + rest) <==> (token.Text? || token.Bold?) && OnlyText(rest)
  {
    var tokens := Flush(buffer) + [token] + rest;
    var n := |Flush(buffer)|;
    if OnlyText(tokens) {
      assert tokens[n] == token;
      forall i | 0 <= i < |rest|
        ensures rest[i].Text? || rest[i].Bold?
      {
        assert tokens[n + 1 + i] == rest[i];
      }
    }
  }

  /** The last brace of a pair is still to be scanned when braces were carried. */
  function Before(carried: nat): string {
    if carried == 0 then "" else "{"
  }

  /** Scanning one plain character. */
  lemma PlainStep(c: char, s: string, buffer: string)
    requires Head([c] + s).None?
    ensures Scan([c] + s, buffer) == Scan(s, buffer + [c])
  {
    assert ([c] + s)[1..] == s;
  }

  /** A pair of braces is taken apart, and hands its last one on. */
  lemma PairScans(s: string, carried: nat, buffer: string)
    requires Opens(s, '{')
    ensures exists b :: Scan(Before(carried) + Escape(s), buffer) == Scan("{" + Escape(s[2..]), b)
  {
    var rest := "{" + Escape(s[2..]);
    assert Escape(s) == ['{'] + ([WORD_JOINER] + rest);
    TakenApart(Before(carried) + Escape(s), rest, carried, buffer);
  }

  lemma TakenApart(s: string, rest: string, carried: nat, buffer: string)
    requires s == Before(carried) + (['{'] + ([WORD_JOINER] + rest))
    ensures exists b :: Scan(s, buffer) == Scan(rest, b)
  {
    var joined := ['{'] + ([WORD_JOINER] + rest);
    if carried > 0 {
      assert s == ['{'] + joined && s == "{{" + ([WORD_JOINER] + rest);
      JoinerIsNoName(rest);
      PlainStep('{', joined, buffer);
      JoinedScans(rest, buffer + ['{']);
    } else {
      assert s == joined;
      JoinedScans(rest, buffer);
    }
  }

  lemma JoinedScans(rest: string, buffer: string)
    ensures Scan(['{'] + ([WORD_JOINER] + rest), buffer) == Scan(rest, buffer + ['{'] + [WORD_JOINER])
  {
    PlainStep('{', [WORD_JOINER] + rest, buffer);
    PlainStep(WORD_JOINER, rest, buffer + ['{']);
  }

  lemma JoinerIsNoName(s: string)
    ensures Head("{{" + ([WORD_JOINER] + s)).None?
  {
    var body := [WORD_JOINER] + s;
    HeadIsReads(body);
    match Seek(body, '}') {
      case None =>
      case Some(k) =>
        if k > 0 {
          assert body[..k][0] == WORD_JOINER;
          match Cut(body[..k], ':') {
            case None =>
            case Some((name, arg)) => assert name != "" && name[0] == WORD_JOINER;
          }
        }
    }
  }

  lemma OutsidePair(s: string, i: nat)
    requires Opens(s, '{') && 2 + i < |s|
    ensures Outside(s, 2 + i) <==> Outside(s[2..], i)
  {
    var rest := s[1..];
    assert rest[0] == '{' && rest[1..] == s[2..];
    assert Outside(s, 2 + i) <==> Outside(rest, 1 + i);
  }

  lemma PairIsNoEnd(s: string, carried: nat)
    requires Opens(s, '{') && carried % 2 == 0
    ensures Run(s, 1, carried) == carried + 2
    ensures !Exposes(s, 0, carried) && !Exposes(s, 1, carried)
  {
    assert Run(s, 0, carried) == 1 + carried;
  }

  lemma PairExposes(s: string, carried: nat)
    requires Opens(s, '{') && carried % 2 == 0
    ensures Exposed(s, carried) <==> Exposed(s[2..], carried + 2)
  {
    PairIsNoEnd(s, carried);
    forall i: nat | 2 + i < |s|
      ensures Outside(s, 2 + i) <==> Outside(s[2..], i)
    {
      OutsidePair(s, i);
    }
    ExposedLater(s, 2, carried, carried + 2);
  }

  /** A character that is no brace, or a single one, hands nothing on. */
  lemma CharExposes(s: string, carried: nat)
    requires s != "" && !BoldAt(s) && !Opens(s, '{') && !Exposes(s, 0, carried)
    ensures Exposed(s, carried) <==> Exposed(s[1..], 0)
  {
    ExposedLater(s, 1, carried, 0);
  }

  lemma BoldExposes(s: string, carried: nat)
    requires BoldAt(s)
    ensures Exposed(s, carried) <==> Exposed(s[BoldWidth(s)..], 0)
  {
    var w := BoldWidth(s);
    assert Run(s, w - 1, carried) == 0;
    ExposedLater(s, w, carried, 0);
  }

  /** Before anything but a brace, a carried brace is plain text. */
  lemma CarriedScans(s: string, carried: nat, buffer: string)
    requires s == "" || s[0] != '{'
    ensures exists b :: Scan(Before(carried) + s, buffer) == Scan(s, b)
  {
    if carried == 0 {
      assert "" + s == s;
    } else {
      PlainStep('{', s, buffer);
    }
  }

  lemma {:induction false} ScanEscaped(s: string, carried: nat, buffer: string)
    requires carried % 2 == 0
    ensures OnlyText(Scan(Before(carried) + Escape(s), buffer)) <==> !Exposed(s, carried)
    decreases |s|
  {
    if s == "" {
      CarriedScans("", carried, buffer);
    } else if Opens(s, '{') {
      PairScans(s, carried, buffer);
      PairExposes(s, carried);
      var b :| Scan(Before(carried) + Escape(s), buffer) == Scan("{" + Escape(s[2..]), b);
      ScanEscaped(s[2..], carried + 2, b);
    } else if s[0] == '{' {
      SingleBrace(s, carried, buffer);
      if !Exposes(s, 0, carried) {
        var b :| Scan(Before(carried) + Escape(s), buffer) == Scan(Escape(s[1..]), b);
        CharExposes(s, carried);
        ScanEscaped(s[1..], 0, b);
        assert "" + Escape(s[1..]) == Escape(s[1..]);
      }
    } else {
      EscapeFirst(s);
      CarriedScans(Escape(s), carried, buffer);
      var b :| Scan(Before(carried) + Escape(s), buffer) == Scan(Escape(s), b);
      BoldEscaped(s);
      var rest := if BoldAt(s) then s[BoldWidth(s)..] else s[1..];
      assert "" + Escape(rest) == Escape(rest);
      if BoldAt(s) {
        BoldExposes(s, carried);
        var (token, width) := Head(Escape(s)).value;
        OnlyTextSplits(b, token, Scan(Escape(s)[width..], ""));
        ScanEscaped(rest, 0, "");
      } else {
        CharExposes(s, carried);
        assert Escape(s)[1..] == Escape(rest);
        ScanEscaped(rest, 0, b + [s[0]]);
      }
    }
  }

  /** The last brace of an odd run: with the one carried before it, it may begin a token. */
  lemma SingleBrace(s: string, carried: nat, buffer: string)
    requires s != "" && s[0] == '{' && !Opens(s, '{') && carried % 2 == 0
    ensures Exposes(s, 0, carried) ==> !OnlyText(Scan(Before(carried) + Escape(s), buffer))
    ensures !Exposes(s, 0, carried) ==> exists b :: Scan(Before(carried) + Escape(s), buffer) == Scan(Escape(s[1..]), b)
  {
    var rest := Escape(s[1..]);
    EscapeFirst(s[1..]);
    assert Escape(s) == ['{'] + rest;
    OddRunExposes(s, s[1..], carried);
    SurvivesEscape(s[1..]);
    OneOrTwo(Before(carried) + Escape(s), rest, carried, buffer);
  }

  lemma OneOrTwo(s: string, rest: string, carried: nat, buffer: string)
    requires s == Before(carried) + (['{'] + rest) && !Opens(['{'] + rest, '{')
    ensures carried > 0 && Head("{{" + rest).Some? ==> !OnlyText(Scan(s, buffer))
    ensures carried == 0 || Head("{{" + rest).None? ==> exists b :: Scan(s, buffer) == Scan(rest, b)
  {
    if carried == 0 {
      assert s == ['{'] + rest;
      PlainStep('{', rest, buffer);
    } else {
      assert s == "{{" + rest;
      TwoBraces(rest, buffer);
    }
  }

  lemma OddRunExposes(s: string, rest: string, carried: nat)
    requires s != "" && s[0] == '{' && !Opens(s, '{') && carried % 2 == 0 && rest == s[1..]
    ensures Exposes(s, 0, carried) <==> carried > 0 && Head("{{" + rest).Some?
  {
    assert s[0 + 1..] == rest;
    assert Run(s, 0, carried) == 1 + carried;
  }

  lemma SurvivesEscape(s: string)
    ensures Head("{{" + Escape(s)).Some? <==> Head("{{" + s).Some?
  {
    HeadIsReads(Escape(s));
    ReadsEscaped(s);
    HeadIsReads(s);
  }

  lemma TwoBraces(rest: string, buffer: string)
    requires !Opens(['{'] + rest, '{')
    ensures Head("{{" + rest).Some? ==> !OnlyText(Scan("{{" + rest, buffer))
    ensures Head("{{" + rest).None? ==> Scan("{{" + rest, buffer) == Scan(rest, buffer + ['{'] + ['{'])
  {
    HeadIsReads(rest);
    assert "{{" + rest == ['{'] + (['{'] + rest);
    if Head("{{" + rest).Some? {
      var (token, width) := Head("{{" + rest).value;
      OnlyTextSplits(buffer, token, Scan(("{{" + rest)[width..], ""));
    } else {
      PlainStep('{', ['{'] + rest, buffer);
      PlainStep('{', rest, buffer + ['{']);
    }
  }

  /** Escaping keeps all braces apart exactly when no three stand in a row. What its purpose
      asks for, that nothing but text and bold is read, it achieves exactly when no run of an
      odd number of braces, three at least and outside bold text, ends with two that begin a
      token with what follows them. */
  lemma EscapeNeutralises(s: string)
    ensures Single(Escape(s), '{') <==> !Triple(s)
    ensures !Triple(s) ==> OnlyText(Scan(Escape(s), ""))
    ensures OnlyText(Scan(Escape(s), "")) <==> forall j: nat :: !Exposes(s, j, 0)
  {
    EscapeSeparates(s);
    if !Triple(s) {
      NoBracesNoTokens(Escape(s), "");
    }
    ScanEscaped(s, 0, "");
    assert "" + Escape(s) == Escape(s);
  }

  lemma {:induction false} OutsidePlain(s: string, j: nat)
    requires j < |s| && forall i :: 0 <= i <= j && i + 1 < |s| ==> !(s[i] == '*' && s[i + 1] == '*')
    ensures Outside(s, j)
  {
    if j > 0 {
      OutsidePlain(s[1..], j - 1);
    }
  }

  /** Any mention, date or link after one brace too many survives the escape, whatever comes
      before it, without bold text, and whatever comes after. */
  lemma MentionSurvives(before: string, token: Token, after: string)
    requires Single(before, '*') && (before != "" ==> before[|before| - 1] != '{')
    requires !token.Text? && !token.Bold? && WellFormed(token)
    ensures !OnlyText(Scan(Escape(before + "{" + Print(token) + after), ""))
  {
    NamedReads(token);
    var (name, arg) := Named(token);
    var rest := name + ":" + arg + "}}" + after;
    HeadReads(token, after);
    BracedShape(before, name, arg, after);
    assert rest[0] == name[0];
    ThreeExpose(before, rest);
    EscapeNeutralises(before + "{{{" + rest);
  }

  lemma BracedShape(before: string, name: string, arg: string, after: string)
    ensures Braced(name, arg) + after == "{{" + (name + ":" + arg + "}}" + after)
    ensures before + "{" + Braced(name, arg) + after == before + "{{{" + (name + ":" + arg + "}}" + after)
  {
    var rest := name + ":" + arg + "}}" + after;
    assert Braced(name, arg) + after == "{{" + rest;
    assert before + "{" + Braced(name, arg) + after == (before + "{") + ("{{" + rest);
    assert "{" + ("{{" + rest) == "{{{" + rest;
  }

  lemma ThreeExpose(before: string, rest: string)
    requires Single(before, '*') && (before != "" ==> before[|before| - 1] != '{')
    requires rest != "" && rest[0] != '{' && Head("{{" + rest).Some?
    ensures Exposes(before + "{{{" + rest, |before| + 2, 0)
  {
    var s, k := before + "{{{" + rest, |before|;
    assert s[k] == s[k + 1] == s[k + 2] == '{' && s[k + 3] == rest[0];
    assert s[k + 2 + 1..] == rest;
    assert k > 0 ==> s[k - 1] == before[k - 1];
    RunOfThree(s, k);
    NoStars(before, s);
    OutsidePlain(s, k + 2);
  }

  lemma RunOfThree(s: string, k: nat)
    requires k + 2 < |s| && s[k] == s[k + 1] == s[k + 2] == '{' && (k > 0 ==> s[k - 1] != '{')
    ensures Run(s, k + 2, 0) == 3
  {
    assert k > 0 ==> Run(s, k - 1, 0) == 0;
    assert Run(s, k, 0) == 1;
    assert Run(s, k + 1, 0) == 2;
  }

  lemma NoStars(before: string, s: string)
    requires Single(before, '*') && |before| + 2 < |s| && before == s[..|before|]
    requires s[|before|] == s[|before| + 1] == s[|before| + 2] == '{'
    ensures forall i :: 0 <= i <= |before| + 2 && i + 1 < |s| ==> !(s[i] == '*' && s[i + 1] == '*')
  {
    forall i | 0 <= i <= |before| + 2 && i + 1 < |s|
      ensures !(s[i] == '*' && s[i + 1] == '*')
    {
      assert i < |before| ==> s[i] == before[i];
      assert i + 1 < |before| ==> s[i + 1] == before[i + 1];
    }
  }

  /** For instance a user mention, which is then the only thing read but the stray brace. */
  lemma EscapeMissesTriple(id: string)
    requires id != "" && Quiet(id, '}') && '{' !in id
    ensures Triple("{" + Print(User(id)))
    ensures Scan(Escape("{" + Print(User(id))), "") == [Text(['{', WORD_JOINER]), User(id)]
  {
    var s := "{" + Print(User(id));
    assert TripleAt(s, 0);
    var rest := s[2..];
    assert rest == "{" + ("user:" + id + "}}");
    assert '{' !in "user:" + id + "}}";
    EscapeQuiet("user:" + id + "}}");
    assert !Opens(rest, '{') && rest[1..] == "user:" + id + "}}";
    assert Escape(s) == ['{', WORD_JOINER] + Print(User(id));
    var tokens := [Text(['{', WORD_JOINER]), User(id)];
    RenderConcat([Text(['{', WORD_JOINER])], [User(id)]);
    RenderOne(User(id));
    RenderOne(Text(['{', WORD_JOINER]));
    assert tokens == [Text(['{', WORD_JOINER])] + [User(id)];
    ReadAfterPrint(tokens);
  }
}
