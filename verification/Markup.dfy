/** The message notation shared with the providers (shared/markup/markup.go): printing
    tokens, and reading them back. Every marker is a doubled character. */
module Markup {
  import opened Common
  import opened Decimals
  import opened Texts

  datatype Token =
    | Text(text: string)
    | Bold(body: string)
    | User(id: string)
    | Channel(id: string)
    | Time(unix: int)
    | Link(url: string, title: string)

  // ----- finding markers

  /** The text begins with the doubled character: strings.HasPrefix(s, "cc"). */
  predicate Opens(s: string, c: char) {
    |s| >= 2 && s[0] == c && s[1] == c
  }

  /** strings.Index(s, "cc"): where the character is first doubled. */
  function Seek(s: string, c: char): (r: Option<nat>)
    ensures r.Some? ==> r.value + 2 <= |s| && s[r.value] == c && s[r.value + 1] == c
  {
    if Opens(s, c) then Some(0)
    else if s == "" then None
    else
      match Seek(s[1..], c)
      case None => None
      case Some(k) => Some(k + 1)
  }

  /** No doubled character inside, and none begun at the end. */
  predicate Quiet(s: string, c: char) {
    && (forall i :: 0 <= i < |s| - 1 ==> !(s[i] == c && s[i + 1] == c))
    && (s != "" ==> s[|s| - 1] != c)
  }

  lemma {:induction false} SeekAt(a: string, c: char, b: string)
    requires Quiet(a, c)
    ensures Seek(a + [c, c] + b, c) == Some(|a|)
  {
    var s := a + [c, c] + b;
    if a != "" {
      assert s[0] == a[0] && (|a| > 1 ==> s[1] == a[1]);
      assert s[1..] == a[1..] + [c, c] + b;
      SeekAt(a[1..], c, b);
    }
  }

  // ----- printing

  function Braced(name: string, arg: string): string {
    "{{" + name + ":" + arg + "}}"
  }

  function Without(s: string, c: char): string {
    if s == "" then "" else (if s[0] == c then "" else [s[0]]) + Without(s[1..], c)
  }

  /** User, Channel, Time, Link and Bold; a title cannot show "|". */
  function Print(token: Token): string {
    match token
    case Text(text) => text
    case Bold(body) => "**" + body + "**"
    case User(id) => Braced("user", id)
    case Channel(id) => Braced("channel", id)
    case Time(unix) => Braced("time", FormatInt(unix))
    case Link(url, title) => Braced("url", url + "|" + Without(title, '|'))
  }

  function Render(tokens: seq<Token>): string {
    if tokens == [] then "" else Print(tokens[0]) + Render(tokens[1..])
  }

  // ----- reading

  function TokenOf(name: string, arg: string): Option<Token> {
    if name == "user" then Some(User(arg))
    else if name == "channel" then Some(Channel(arg))
    else if name == "time" then
      match ParseInt(arg)
      case None => None
      case Some(unix) => Some(Time(unix))
    else if name == "url" then
      match Cut(arg, '|')
      case None => None
      case Some((url, title)) => if url == "" then None else Some(Link(url, title))
    else None
  }

  /** A token at the beginning of the text, and its width. */
  function ParseToken(s: string): (r: Option<(Token, nat)>)
    requires Opens(s, '{')
    ensures r.Some? ==> 0 < r.value.1 <= |s|
  {
    match Seek(s, '}')
    case None => None
    case Some(end) =>
      assert end >= 2;
      match Cut(s[2..end], ':')
      case None => None
      case Some((name, arg)) =>
        if arg == "" then None
        else
          match TokenOf(name, arg)
          case None => None
          case Some(token) => Some((token, end + 2))
  }

  function ParseBold(s: string): (r: Option<(Token, nat)>)
    requires Opens(s, '*')
    ensures r.Some? ==> 0 < r.value.1 <= |s|
  {
    match Seek(s[2..], '*')
    case None => None
    case Some(end) => if end == 0 then None else Some((Bold(s[2..][..end]), 4 + end))
  }

  /** What stands at the beginning of the text, if it is more than a character. */
  function Head(s: string): (r: Option<(Token, nat)>)
    ensures r.Some? ==> 0 < r.value.1 <= |s|
  {
    if Opens(s, '{') then ParseToken(s) else if Opens(s, '*') then ParseBold(s) else None
  }

  function Flush(buffer: string): seq<Token> {
    if buffer == "" then [] else [Text(buffer)]
  }

  /** The tokens of the rest of the text, after the plain characters in the buffer. */
  function Scan(s: string, buffer: string): seq<Token>
    decreases |s|
  {
    if s == "" then Flush(buffer)
    else
      match Head(s)
      case None => Scan(s[1..], buffer + [s[0]])
      case Some((token, width)) => Flush(buffer) + [token] + Scan(s[width..], "")
  }

  method Parse(s: string) returns (tokens: seq<Token>)
    ensures tokens == Scan(s, "")
  {
    tokens := [];
    var buffer := "";
    var i := 0;
    while i < |s|
      invariant 0 <= i <= |s|
      invariant Scan(s, "") == tokens + Scan(s[i..], buffer)
    {
      var found := Recognize(s[i..]);
      ScanOn(s, i, buffer);
      if found.None? {
        buffer := buffer + [s[i]];
        i := i + 1;
        continue;
      }
      Regroup(tokens, Flush(buffer), [found.value.0], Scan(s[i + found.value.1..], ""));
      tokens := tokens + Flush(buffer) + [found.value.0];
      buffer := "";
      i := i + found.value.1;
    }
    tokens := tokens + Flush(buffer);
  }

  /** The cases of the loop: a token, bold text, or a plain character. */
  method Recognize(s: string) returns (found: Option<(Token, nat)>)
    ensures found == Head(s)
  {
    found := None;
    if Opens(s, '{') {
      found := ParseToken(s);
    } else if Opens(s, '*') {
      found := ParseBold(s);
    }
  }

  lemma Regroup(a: seq<Token>, b: seq<Token>, c: seq<Token>, d: seq<Token>)
    ensures a + (b + c + d) == (a + b + c) + d
  {
  }

  lemma ScanOn(s: string, i: nat, buffer: string)
    requires i < |s|
    ensures match Head(s[i..])
            case None => Scan(s[i..], buffer) == Scan(s[i + 1..], buffer + [s[i]])
            case Some((token, width)) => Scan(s[i..], buffer) == Flush(buffer) + [token] + Scan(s[i + width..], "")
  {
    match Head(s[i..]) {
      case None => assert s[i..][1..] == s[i + 1..];
      case Some((_, width)) => assert s[i..][width..] == s[i + width..];
    }
  }

  // ----- the shape of a token list

  predicate Tidy(tokens: seq<Token>) {
    && (forall i :: 0 <= i < |tokens| && tokens[i].Text? ==> tokens[i].text != "")
    && (forall i :: 0 <= i < |tokens| - 1 ==> !(tokens[i].Text? && tokens[i + 1].Text?))
  }

  /** Reading never yields an empty text, nor two texts in a row. */
  lemma {:induction false} ScanIsTidy(s: string, buffer: string)
    ensures Tidy(Scan(s, buffer))
    decreases |s|
  {
    if s != "" {
      match Head(s) {
        case None => ScanIsTidy(s[1..], buffer + [s[0]]);
        case Some((token, width)) =>
          HeadIsNoText(s);
          ScanIsTidy(s[width..], "");
      }
    }
  }

  lemma HeadIsNoText(s: string)
    ensures Head(s).Some? ==> !Head(s).value.0.Text?
  {
  }

  // ----- printing what was read

  /** The piece a token was read from is the one it prints: a time has a canonical number,
      the title of a link has no second bar. */
  predicate PlainPiece(piece: string, token: Token)
    requires token.Time? ==> |piece| >= 9
  {
    match token
    case Time(_) => Decimals.Canonical(piece[7..|piece| - 2])
    case Link(_, title) => '|' !in title
    case _ => true
  }

  lemma {:induction false} WithoutShrinks(s: string, c: char)
    ensures |Without(s, c)| <= |s|
    ensures Without(s, c) == s <==> c !in s
    ensures |Without(s, c)| == |s| ==> c !in s
  {
    if s != "" {
      WithoutShrinks(s[1..], c);
      assert s == [s[0]] + s[1..];
    }
  }

  lemma TokenPrints(name: string, arg: string, token: Token)
    requires TokenOf(name, arg) == Some(token)
    ensures var piece := Braced(name, arg);
      && |Print(token)| <= |piece| && (token.Time? ==> |piece| >= 9)
      && (Print(token) == piece <==> PlainPiece(piece, token))
      && (|Print(token)| == |piece| ==> Print(token) == piece)
  {
    var piece := Braced(name, arg);
    match token {
      case Time(unix) =>
        FormatParse(arg);
        assert piece[7..|piece| - 2] == arg;
        assert Print(token) == piece <==> FormatInt(unix) == arg by {
          assert Print(token)[7..|Print(token)| - 2] == FormatInt(unix);
        }
      case Link(url, title) =>
        WithoutShrinks(title, '|');
        assert arg == url + "|" + title;
      case _ =>
    }
  }

  lemma Enclosed(s: string, open: char, close: char, end: nat)
    requires Opens(s, open) && 2 <= end <= |s| - 2 && s[end] == s[end + 1] == close
    ensures s[..end + 2] == [open, open] + s[2..end] + [close, close]
  {
    assert s[..2] == [open, open] && s[end..end + 2] == [close, close];
    assert s[..end + 2] == s[..2] + s[2..end] + s[end..end + 2];
  }

  /** A token never prints longer than the piece it was read from. */
  lemma HeadPrints(s: string)
    requires Head(s).Some?
    ensures var (token, width) := Head(s).value;
      && |Print(token)| <= width && (token.Time? ==> width >= 9)
      && (Print(token) == s[..width] <==> PlainPiece(s[..width], token))
      && (|Print(token)| == width ==> Print(token) == s[..width])
  {
    var (token, width) := Head(s).value;
    if Opens(s, '{') {
      var end := Seek(s, '}').value;
      var (name, arg) := Cut(s[2..end], ':').value;
      Enclosed(s, '{', '}', end);
      assert "{{" + (name + ":" + arg) + "}}" == Braced(name, arg);
      TokenPrints(name, arg, token);
    } else {
      var end := Seek(s[2..], '*').value;
      Enclosed(s, '*', '*', end + 2);
      assert s[2..end + 2] == s[2..][..end];
    }
  }

  /** Every piece of the text is one its token prints. */
  predicate Faithful(s: string)
    decreases |s|
  {
    if s == "" then true
    else
      match Head(s)
      case None => Faithful(s[1..])
      case Some((token, width)) =>
        (token.Time? ==> width >= 9) && PlainPiece(s[..width], token) && Faithful(s[width..])
  }

  lemma {:induction false} RenderConcat(a: seq<Token>, b: seq<Token>)
    ensures Render(a + b) == Render(a) + Render(b)
  {
    if a == [] {
      assert a + b == b;
    } else {
      assert (a + b)[1..] == a[1..] + b;
      RenderConcat(a[1..], b);
    }
  }

  lemma RenderOne(token: Token)
    ensures Render([token]) == Print(token)
  {
    assert [token][1..] == [];
    assert Print(token) + "" == Print(token);
  }

  lemma RenderStep(buffer: string, token: Token, rest: seq<Token>)
    ensures Render(Flush(buffer) + [token] + rest) == buffer + Print(token) + Render(rest)
  {
    RenderConcat(Flush(buffer) + [token], rest);
    RenderConcat(Flush(buffer), [token]);
    RenderOne(token);
    RenderOne(Text(buffer));
  }

  /** What is printed is no longer than the text, and is the text exactly if it is faithful. */
  ghost predicate Returns(s: string, buffer: string, printed: string) {
    && |printed| <= |buffer| + |s|
    && (printed == buffer + s <==> Faithful(s))
    && (|printed| == |buffer| + |s| ==> Faithful(s))
  }

  lemma RenderHead(s: string, buffer: string)
    requires Head(s).Some?
    requires var width := Head(s).value.1; Returns(s[width..], "", Render(Scan(s[width..], "")))
    ensures Returns(s, buffer, Render(Scan(s, buffer)))
  {
    var (token, width) := Head(s).value;
    var tail := Scan(s[width..], "");
    assert "" + s[width..] == s[width..];
    HeadPrints(s);
    RenderStep(buffer, token, tail);
    assert Scan(s, buffer) == Flush(buffer) + [token] + tail;
    SameLengths(buffer, Print(token), Render(tail), s, width);
  }

  lemma PlainReturns(s: string, buffer: string, printed: string)
    requires s != "" && Head(s).None? && Returns(s[1..], buffer + [s[0]], printed)
    ensures Returns(s, buffer, printed)
  {
    assert buffer + [s[0]] + s[1..] == buffer + s;
  }

  lemma {:induction false} RenderScan(s: string, buffer: string)
    ensures Returns(s, buffer, Render(Scan(s, buffer)))
    decreases |s|
  {
    if s == "" {
      assert buffer + s == buffer;
      RenderOne(Text(buffer));
    } else {
      match Head(s) {
        case None =>
          RenderScan(s[1..], buffer + [s[0]]);
          PlainReturns(s, buffer, Render(Scan(s[1..], buffer + [s[0]])));
        case Some((_, width)) =>
          RenderScan(s[width..], "");
          RenderHead(s, buffer);
      }
    }
  }

  /** Two texts of the same pieces, or of shorter ones. */
  lemma SameLengths(buffer: string, printed: string, rest: string, s: string, width: nat)
    requires width <= |s| && |printed| <= width && |rest| <= |s| - width
    requires |printed| == width ==> printed == s[..width]
    ensures buffer + printed + rest == buffer + s <==> printed == s[..width] && rest == s[width..]
  {
    assert s == s[..width] + s[width..];
    if buffer + printed + rest == buffer + s {
      assert |printed| == width;
      assert (buffer + printed + rest)[|buffer| + width..] == rest;
      assert (buffer + s)[|buffer| + width..] == s[width..];
    }
  }

  /** Printing what was read gives the text back exactly when its times are canonical
      numbers and its link titles have no bar; it never gets longer. */
  lemma PrintAfterRead(s: string)
    ensures Render(Scan(s, "")) == s <==> Faithful(s)
    ensures |Render(Scan(s, ""))| <= |s|
  {
    RenderScan(s, "");
    assert "" + s == s;
  }

  // ----- reading what was printed

  /** No doubled character inside. */
  predicate Single(s: string, c: char) {
    forall i :: 0 <= i < |s| - 1 ==> !(s[i] == c && s[i + 1] == c)
  }

  predicate WellFormed(token: Token) {
    match token
    case Text(text) => text != "" && Single(text, '{') && Single(text, '*')
    case Bold(body) => body != "" && Quiet(body, '*')
    case User(id) => id != "" && Quiet(id, '}')
    case Channel(id) => id != "" && Quiet(id, '}')
    case Time(unix) => MIN_INT64 <= unix <= MAX_INT64
    case Link(url, title) => url != "" && '|' !in url && '|' !in title && Quiet(url + "|" + title, '}')
  }

  /** Texts are free of markers and not adjacent, and none runs into bold text. */
  predicate WellFormedList(tokens: seq<Token>) {
    && Tidy(tokens)
    && (forall i :: 0 <= i < |tokens| ==> WellFormed(tokens[i]))
    && (forall i :: 0 <= i < |tokens| - 1 && tokens[i].Text? && tokens[i + 1].Bold? ==>
          tokens[i].text[|tokens[i].text| - 1] != '*')
  }

  /** The name and argument a braced token is printed with. */
  function Named(token: Token): (string, string)
    requires !token.Text? && !token.Bold?
  {
    match token
    case User(id) => ("user", id)
    case Channel(id) => ("channel", id)
    case Time(unix) => ("time", FormatInt(unix))
    case Link(url, title) => ("url", url + "|" + title)
  }

  lemma NamedReads(token: Token)
    requires !token.Text? && !token.Bold? && WellFormed(token)
    ensures var (name, arg) := Named(token);
      && Print(token) == Braced(name, arg) && TokenOf(name, arg) == Some(token)
      && arg != "" && Quiet(arg, '}') && '}' !in name && ':' !in name && '{' !in name && name != ""
  {
    match token {
      case Time(unix) => ParseFormat(unix);
      case Link(url, title) =>
        CutAt(url, '|', title);
        WithoutShrinks(title, '|');
      case _ =>
    }
  }

  lemma QuietAfter(a: string, b: string, c: char)
    requires c !in a && b != "" && Quiet(b, c)
    ensures Quiet(a + b, c)
  {
    var s := a + b;
    forall i | 0 <= i < |s| - 1
      ensures !(s[i] == c && s[i + 1] == c)
    {
      if i < |a| {
        assert s[i] == a[i];
      } else {
        assert s[i] == b[i - |a|] && s[i + 1] == b[i + 1 - |a|];
      }
    }
  }

  /** Looking for the end and the name of a braced token. `name` may begin with a stray brace. */
  lemma BracedReads(name: string, arg: string, rest: string)
    requires '}' !in name && ':' !in name && arg != "" && Quiet(arg, '}')
    ensures var s := "{{" + (name + ":" + arg) + "}}" + rest; var end := |name| + |arg| + 3;
      && Opens(s, '{') && Seek(s, '}') == Some(end) && end <= |s| && s[2..end] == name + ":" + arg
      && Cut(s[2..end], ':') == Some((name, arg))
  {
    var body := name + ":" + arg;
    var s := "{{" + body + "}}" + rest;
    QuietAfter(name + ":", arg, '}');
    QuietAfter("{{", body, '}');
    SeekAt("{{" + body, '}', rest);
    assert s == "{{" + body + ['}', '}'] + rest;
    assert s[2..2 + |body|] == body;
    CutAt(name, ':', arg);
  }

  lemma BracedHead(name: string, arg: string, rest: string)
    requires '}' !in name && ':' !in name && arg != "" && Quiet(arg, '}') && TokenOf(name, arg).Some?
    ensures Head(Braced(name, arg) + rest) == Some((TokenOf(name, arg).value, |Braced(name, arg)|))
  {
    BracedReads(name, arg, rest);
    var s := Braced(name, arg) + rest;
    assert "{{" + (name + ":" + arg) + "}}" == Braced(name, arg);
    assert Head(s) == ParseToken(s);
  }

  lemma BoldHead(s: string, body: string, rest: string)
    requires body != "" && Quiet(body, '*') && Opens(s, '*') && s[2..] == body + ['*', '*'] + rest
    ensures Head(s) == Some((Bold(body), 4 + |body|))
  {
    SeekAt(body, '*', rest);
    assert s[2..][..|body|] == body;
  }

  lemma BoldReads(body: string, rest: string)
    requires body != "" && Quiet(body, '*')
    ensures Head(Print(Bold(body)) + rest) == Some((Bold(body), |Print(Bold(body))|))
  {
    var s := Print(Bold(body)) + rest;
    assert s[2..] == body + ['*', '*'] + rest;
    BoldHead(s, body, rest);
  }

  /** A printed token is read back, whatever follows it. */
  lemma HeadReads(token: Token, rest: string)
    requires !token.Text? && WellFormed(token)
    ensures Head(Print(token) + rest) == Some((token, |Print(token)|))
  {
    if token.Bold? {
      BoldReads(token.body, rest);
    } else {
      NamedReads(token);
      var (name, arg) := Named(token);
      BracedHead(name, arg, rest);
    }
  }

  lemma StrayShape(name: string, arg: string, rest: string)
    ensures "{" + (Braced(name, arg) + rest) == "{{" + ("{" + name + ":" + arg) + "}}" + rest
  {
    var body := name + ":" + arg;
    assert Braced(name, arg) == "{{" + body + "}}";
    assert "{" + name + ":" + arg == "{" + body;
    assert "{" + ("{{" + body + "}}" + rest) == "{{" + ("{" + body) + "}}" + rest;
  }

  lemma StrayHead(name: string, arg: string, rest: string)
    requires '}' !in name && ':' !in name && '{' !in name && name != "" && arg != "" && Quiet(arg, '}')
    ensures Head("{{" + ("{" + name + ":" + arg) + "}}" + rest).None?
  {
    BracedReads("{" + name, arg, rest);
    assert ("{" + name)[0] == '{';
  }

  /** A stray brace before a token spoils only itself. */
  lemma StrayBrace(token: Token, rest: string)
    requires !token.Text? && !token.Bold? && WellFormed(token)
    ensures Head("{" + (Print(token) + rest)).None?
  {
    NamedReads(token);
    var (name, arg) := Named(token);
    StrayHead(name, arg, rest);
    StrayShape(name, arg, rest);
  }

  /** Nothing is recognised at the last character of a text, before the tokens that follow. */
  predicate EndsAlone(text: string, rest: string) {
    text != "" ==> Head([text[|text| - 1]] + rest).None?
  }

  lemma {:induction false} ScanText(text: string, rest: string, buffer: string)
    requires Single(text, '{') && Single(text, '*') && EndsAlone(text, rest)
    ensures Scan(text + rest, buffer) == Scan(rest, buffer + text)
    decreases |text|
  {
    if text == "" {
      assert text + rest == rest && buffer + text == buffer;
    } else {
      var s := text + rest;
      assert s[1..] == text[1..] + rest;
      assert |text| == 1 ==> s == [text[|text| - 1]] + rest;
      assert Head(s).None?;
      ScanText(text[1..], rest, buffer + [s[0]]);
      assert buffer + [s[0]] + text[1..] == buffer + text;
    }
  }

  lemma PrintOpens(token: Token)
    requires !token.Text?
    ensures |Print(token)| >= 2 && Opens(Print(token), if token.Bold? then '*' else '{')
  {
  }

  lemma ListEndsAlone(tokens: seq<Token>)
    requires WellFormedList(tokens) && tokens != [] && tokens[0].Text?
    ensures EndsAlone(tokens[0].text, Render(tokens[1..]))
  {
    var text, rest := tokens[0].text, Render(tokens[1..]);
    var last := text[|text| - 1];
    if |tokens| == 1 {
      assert [last] + rest == [last];
    } else {
      var next := tokens[1];
      var after := Render(tokens[2..]);
      assert tokens[1..][1..] == tokens[2..];
      assert rest == Print(next) + after;
      PrintOpens(next);
      if last == '{' && !next.Bold? {
        StrayBrace(next, after);
      }
    }
  }

  /** Reading what was printed gives the tokens back. */
  lemma {:induction false} ReadAfterPrint(tokens: seq<Token>)
    requires WellFormedList(tokens)
    ensures Scan(Render(tokens), "") == tokens
    decreases |tokens|
  {
    if tokens != [] {
      var rest := tokens[1..];
      ReadAfterPrint(rest);
      assert tokens == [tokens[0]] + rest;
      if tokens[0].Text? {
        var text := tokens[0].text;
        ListEndsAlone(tokens);
        ScanText(text, Render(rest), "");
        assert "" + text == text;
        TextBefore(text, rest);
      } else {
        HeadReads(tokens[0], Render(rest));
        assert Render(tokens)[|Print(tokens[0])|..] == Render(rest);
      }
    }
  }

  lemma TextBefore(text: string, rest: seq<Token>)
    requires text != "" && WellFormedList(rest) && (rest != [] ==> !rest[0].Text?) && Scan(Render(rest), "") == rest
    ensures Scan(Render(rest), text) == [Text(text)] + rest
  {
    if rest != [] {
      HeadReads(rest[0], Render(rest[1..]));
      var s, width := Render(rest), |Print(rest[0])|;
      assert s[width..] == Render(rest[1..]);
      assert Scan(s, "") == [] + [rest[0]] + Scan(s[width..], "");
      assert Scan(s, text) == [Text(text)] + [rest[0]] + Scan(s[width..], "");
    }
  }

  /** The notation, form by form. */
  function Notation(token: Token): string {
    match token
    case Text(text) => text
    case Bold(body) => "**" + body + "**"
    case User(id) => "{{user:" + id + "}}"
    case Channel(id) => "{{channel:" + id + "}}"
    case Time(unix) => "{{time:" + FormatInt(unix) + "}}"
    case Link(url, title) => "{{url:" + url + "|" + title + "}}"
  }

  lemma NotationPrints(token: Token)
    requires WellFormed(token)
    ensures Print(token) == Notation(token)
  {
    match token {
      case User(id) => assert "{{" + "user" + ":" == "{{user:";
      case Channel(id) => assert "{{" + "channel" + ":" == "{{channel:";
      case Time(unix) => assert "{{" + "time" + ":" == "{{time:";
      case Link(url, title) => LinkPrints(url, title);
      case _ =>
    }
  }

  lemma LinkPrints(url: string, title: string)
    requires '|' !in title
    ensures Print(Link(url, title)) == "{{url:" + url + "|" + title + "}}"
  {
    WithoutShrinks(title, '|');
    assert "{{" + "url" + ":" == "{{url:";
    assert "{{url:" + (url + "|" + title) + "}}" == "{{url:" + url + "|" + title + "}}";
  }

  /** Each form is what its token prints, and is read as that token. */
  lemma NotationReads(token: Token)
    requires WellFormed(token)
    ensures Print(token) == Notation(token) && Scan(Notation(token), "") == [token]
  {
    hide Print, Scan, Notation;
    NotationPrints(token);
    ReadAfterPrint([token]);
    assert Render([token]) == Print(token) + Render([]) == Print(token);
  }
}
