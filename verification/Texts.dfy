/** Cutting user input into words (strings.Fields, strings.FieldsFunc, strings.Join,
    strings.TrimSpace, and bot.normalizeInput on text that is already in NFKC form). */
module Texts {
  import opened Common

  predicate IsSpace(c: char) {
    c in {' ', '\t', '\n', '\r', '\U{0B}', '\U{0C}'}
  }

  function Emit(word: string): seq<string> {
    if word == "" then [] else [word]
  }

  /** The words of the rest of the text, after the beginning of one. */
  function Split(s: string, separates: char -> bool, word: string): seq<string> {
    if s == "" then Emit(word)
    else if separates(s[0]) then Emit(word) + Split(s[1..], separates, "")
    else Split(s[1..], separates, word + [s[0]])
  }

  function Fields(s: string): seq<string> {
    Split(s, IsSpace, "")
  }

  function Join(words: seq<string>, glue: string): string {
    if words == [] then ""
    else if |words| == 1 then words[0]
    else words[0] + glue + Join(words[1..], glue)
  }

  function Normalize(s: string): string {
    Join(Fields(s), " ")
  }

  function TrimLeft(s: string): string {
    if s != "" && IsSpace(s[0]) then TrimLeft(s[1..]) else s
  }

  function TrimRight(s: string): string {
    if s != "" && IsSpace(s[|s| - 1]) then TrimRight(s[..|s| - 1]) else s
  }

  function TrimSpace(s: string): string {
    TrimRight(TrimLeft(s))
  }

  function LowerChar(c: char): char {
    if 'A' <= c <= 'Z' then (c as int + 32) as char else c
  }

  function Lower(s: string): string {
    seq(|s|, i requires 0 <= i < |s| => LowerChar(s[i]))
  }

  /** cutPrefixFold: the rest after a prefix in upper or lower case. */
  function CutPrefix(s: string, prefix: string): Option<string> {
    if |s| < |prefix| || Lower(s[..|prefix|]) != Lower(prefix) then None else Some(TrimSpace(s[|prefix|..]))
  }

  /** strings.Cut(s, "c"). */
  function Cut(s: string, c: char): (r: Option<(string, string)>)
    ensures r.Some? ==> s == r.value.0 + [c] + r.value.1 && c !in r.value.0
    ensures r.None? ==> c !in s
  {
    if s == "" then None
    else if s[0] == c then Some(("", s[1..]))
    else
      match Cut(s[1..], c)
      case None => None
      case Some((before, after)) => Some(([s[0]] + before, after))
  }

  lemma {:induction false} CutAt(a: string, c: char, b: string)
    requires c !in a
    ensures Cut(a + [c] + b, c) == Some((a, b))
  {
    var s := a + [c] + b;
    if a == "" {
      assert s[1..] == b;
    } else {
      assert s[1..] == a[1..] + [c] + b;
      CutAt(a[1..], c, b);
      assert [a[0]] + a[1..] == a;
    }
  }

  predicate Unbroken(word: string, separates: char -> bool) {
    forall i :: 0 <= i < |word| ==> !separates(word[i])
  }

  lemma {:induction false} SplitWord(word: string, rest: string, separates: char -> bool, begun: string)
    requires Unbroken(word, separates)
    ensures Split(word + rest, separates, begun) == Split(rest, separates, begun + word)
  {
    if word == "" {
      assert word + rest == rest && begun + word == begun;
    } else {
      assert (word + rest)[1..] == word[1..] + rest;
      SplitWord(word[1..], rest, separates, begun + [word[0]]);
      assert begun + [word[0]] + word[1..] == begun + word;
    }
  }

  /** A word, a separator, and the rest. */
  lemma SplitFirst(word: string, c: char, rest: string, separates: char -> bool)
    requires word != "" && Unbroken(word, separates) && separates(c)
    ensures Split(word + [c] + rest, separates, "") == [word] + Split(rest, separates, "")
  {
    assert word + [c] + rest == word + ([c] + rest);
    SplitWord(word, [c] + rest, separates, "");
    assert "" + word == word && ([c] + rest)[1..] == rest;
  }

  lemma SplitOnly(word: string, separates: char -> bool)
    requires word != "" && Unbroken(word, separates)
    ensures Split(word, separates, "") == [word]
  {
    assert word + "" == word && "" + word == word;
    SplitWord(word, "", separates, "");
  }

  /** Joining words with a separator and splitting at it gives the words back. */
  lemma {:induction false} SplitJoin(words: seq<string>, c: char, separates: char -> bool)
    requires separates(c) && forall i :: 0 <= i < |words| ==> words[i] != "" && Unbroken(words[i], separates)
    ensures Split(Join(words, [c]), separates, "") == words
  {
    if |words| == 1 {
      SplitOnly(words[0], separates);
    } else if |words| > 1 {
      SplitJoin(words[1..], c, separates);
      SplitFirst(words[0], c, Join(words[1..], [c]), separates);
    }
  }

  /** Words joined by single blanks are in normal form. */
  lemma NormalForm(words: seq<string>)
    requires forall i :: 0 <= i < |words| ==> words[i] != "" && Unbroken(words[i], IsSpace)
    ensures Normalize(Join(words, " ")) == Join(words, " ")
  {
    SplitJoin(words, ' ', IsSpace);
  }

  lemma WordIsNormal(word: string)
    requires word != "" && Unbroken(word, IsSpace)
    ensures Normalize(word) == word
  {
    NormalForm([word]);
  }

  lemma TrimWord(s: string)
    requires s != "" ==> !IsSpace(s[0]) && !IsSpace(s[|s| - 1])
    ensures TrimSpace(s) == s
  {
  }
}
