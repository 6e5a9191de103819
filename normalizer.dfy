/** `GymChatbot.preprocess_text` (chatbot.py): lowercase, drop every character
    outside `[a-zA-Z0-9\s]`, split into words, lemmatize each word.
    The lemmatizer is a parameter: it is a foreign dictionary lookup, and the
    classifier applies the same one to the user's text and to the keywords. */
module Normalizer {
  import opened Strings

  predicate IsAsciiUpper(c: char) { 'A' <= c <= 'Z' }
  predicate IsAsciiLower(c: char) { 'a' <= c <= 'z' }
  predicate IsDigit(c: char) { '0' <= c <= '9' }
  predicate IsAsciiAlnum(c: char) { IsAsciiUpper(c) || IsAsciiLower(c) || IsDigit(c) }

  /** `str.lower()` on one character, for the ASCII letters. */
  function LowerChar(c: char): (d: char)
    ensures !IsAsciiUpper(d)
    ensures IsAsciiAlnum(d) <==> IsAsciiAlnum(c)
    ensures IsPySpace(d) <==> IsPySpace(c)
  {
    if IsAsciiUpper(c) then (c as int - 'A' as int + 'a' as int) as char else c
  }

  function Lower(s: string): (r: string)
    ensures |r| == |s| && forall i :: 0 <= i < |s| ==> r[i] == LowerChar(s[i])
  {
    seq(|s|, i requires 0 <= i < |s| => LowerChar(s[i]))
  }

  /** The characters that `[a-zA-Z0-9\s]` matches. */
  predicate Kept(c: char) { IsAsciiAlnum(c) || IsPySpace(c) }

  /** `re.sub(r'[^a-zA-Z0-9\s]', '', s)`: the kept characters of `s`, in order. */
  function RemoveSpecial(s: string): (r: string)
    ensures |r| <= |s|
    ensures forall c :: c in r <==> c in s && Kept(c)
    decreases |s|
  {
    if s == [] then "" else (if Kept(s[0]) then [s[0]] else "") + RemoveSpecial(s[1..])
  }

  /** One character is kept exactly when the class matches it. */
  lemma RemoveSpecialChar(c: char)
    ensures RemoveSpecial([c]) == if Kept(c) then [c] else []
  {
    assert [c][1..] == [];
  }

  /** The filter works piece by piece: with `RemoveSpecialChar`, this fixes the
      result as the kept characters in their order and multiplicity. */
  lemma {:induction false} RemoveSpecialAppend(a: string, b: string)
    ensures RemoveSpecial(a + b) == RemoveSpecial(a) + RemoveSpecial(b)
    decreases |a|
  {
    if a == [] {
      assert a + b == b;
    } else {
      assert (a + b)[1..] == a[1..] + b;
      RemoveSpecialAppend(a[1..], b);
      var head := if Kept(a[0]) then [a[0]] else "";
      AppendAssoc(head, RemoveSpecial(a[1..]), RemoveSpecial(b));
    }
  }

  predicate IsCleanChar(c: char) { IsAsciiLower(c) || IsDigit(c) || IsPySpace(c) }

  /** chatbot.py lines 32-34: the text before tokenizing holds only lowercase ASCII
      letters, digits and whitespace. */
  function Clean(text: string): (r: string)
    ensures |r| <= |text|
    ensures forall i :: 0 <= i < |r| ==> IsCleanChar(r[i])
  {
    var low := Lower(text);
    var r := RemoveSpecial(low);
    forall i | 0 <= i < |r| ensures IsCleanChar(r[i]) {
      assert r[i] in r;
      var j :| 0 <= j < |low| && low[j] == r[i];
    }
    r
  }

  lemma {:induction false} RemoveSpecialKeepsKept(s: string)
    requires forall i :: 0 <= i < |s| ==> Kept(s[i])
    ensures RemoveSpecial(s) == s
    decreases |s|
  {
    if s != [] {
      RemoveSpecialKeepsKept(s[1..]);
      assert [s[0]] + s[1..] == s;
    }
  }

  /** Text that is already clean passes through unchanged, so cleaning is idempotent. */
  lemma CleanFixesClean(s: string)
    requires forall i :: 0 <= i < |s| ==> IsCleanChar(s[i])
    ensures Clean(s) == s
  {
    assert Lower(s) == s;
    RemoveSpecialKeepsKept(s);
  }

  lemma CleanIdempotent(text: string)
    ensures Clean(Clean(text)) == Clean(text)
  {
    CleanFixesClean(Clean(text));
  }

  /** Cleaning leaves only whitespace exactly when the text holds no ASCII letter or digit. */
  lemma CleanAllSpaceIff(text: string)
    ensures AllSpace(Clean(text), IsPySpace) <==> forall i :: 0 <= i < |text| ==> !IsAsciiAlnum(text[i])
  {
    var low := Lower(text);
    if exists i :: 0 <= i < |text| && IsAsciiAlnum(text[i]) {
      var i :| 0 <= i < |text| && IsAsciiAlnum(text[i]);
      assert low[i] in low && Kept(low[i]);
      var c := low[i];
      assert c in Clean(text);
      var j :| 0 <= j < |Clean(text)| && Clean(text)[j] == c;
      assert !IsPySpace(Clean(text)[j]);
    } else {
      forall j | 0 <= j < |Clean(text)| ensures IsPySpace(Clean(text)[j]) {
        var c := Clean(text)[j];
        assert c in low;
      }
    }
  }

  /** A word: non-empty and free of whitespace. */
  predicate IsWord(w: string) {
    w != [] && forall i :: 0 <= i < |w| ==> !IsPySpace(w[i])
  }

  /** The length of the leading run of non-whitespace characters. */
  function WordLength(s: string): (n: nat)
    ensures n <= |s| && (n == |s| || IsPySpace(s[n]))
    ensures forall i :: 0 <= i < n ==> !IsPySpace(s[i])
    ensures s != [] && !IsPySpace(s[0]) ==> n > 0
    decreases |s|
  {
    if s == [] || IsPySpace(s[0]) then 0 else 1 + WordLength(s[1..])
  }

  /** Every element is a word. */
  predicate AllWords(words: seq<string>) {
    forall i :: 0 <= i < |words| ==> IsWord(words[i])
  }

  lemma ConsWords(w: string, words: seq<string>)
    requires IsWord(w) && AllWords(words)
    ensures AllWords([w] + words)
  {
    assert forall i :: 0 < i <= |words| ==> ([w] + words)[i] == words[i - 1];
  }

  /** A text that starts with a non-space character starts with a word. */
  lemma LeadingWord(s: string)
    requires s != [] && !IsPySpace(s[0])
    ensures 0 < WordLength(s) && IsWord(s[..WordLength(s)])
  {
    var n := WordLength(s);
    assert forall i :: 0 <= i < n ==> s[..n][i] == s[i];
  }

  /** `word_tokenize` on cleaned text: the maximal whitespace-free runs, in order. */
  function Tokenize(s: string): (words: seq<string>)
    ensures AllWords(words)
    decreases |s|
  {
    var rest := TrimStart(s, IsPySpace);
    if rest == [] then [] else
      var n := WordLength(rest);
      LeadingWord(rest);
      var tail := Tokenize(rest[n..]);
      ConsWords(rest[..n], tail);
      [rest[..n]] + tail
  }

  /** The characters of `s` that are not whitespace, in order. */
  function NonSpace(s: string): string
    decreases |s|
  {
    if s == [] then "" else (if IsPySpace(s[0]) then "" else [s[0]]) + NonSpace(s[1..])
  }

  function Id(w: string): string { w }

  lemma {:induction false} NonSpaceAppend(a: string, b: string)
    ensures NonSpace(a + b) == NonSpace(a) + NonSpace(b)
    decreases |a|
  {
    if a == [] {
      assert a + b == b;
    } else {
      assert (a + b)[1..] == a[1..] + b;
      NonSpaceAppend(a[1..], b);
    }
  }

  lemma {:induction false} NonSpaceOfSpaces(s: string)
    requires AllSpace(s, IsPySpace)
    ensures NonSpace(s) == ""
    decreases |s|
  {
    if s != [] { NonSpaceOfSpaces(s[1..]); }
  }

  lemma {:induction false} NonSpaceOfWord(w: string)
    requires IsWord(w)
    ensures NonSpace(w) == w
    decreases |w|
  {
    if |w| == 1 {
      assert NonSpace(w) == [w[0]] + NonSpace([]);
    } else {
      NonSpaceOfWord(w[1..]);
      assert [w[0]] + w[1..] == w;
    }
  }

  lemma NonSpaceTrimStart(s: string)
    ensures NonSpace(TrimStart(s, IsPySpace)) == NonSpace(s)
  {
    var rest := TrimStart(s, IsPySpace);
    var k := |s| - |rest|;
    SplitAt(s, k);
    NonSpaceAppend(s[..k], s[k..]);
    NonSpaceOfSpaces(s[..k]);
  }

  /** One step of `Tokenize`: the first word of the text after its leading whitespace. */
  lemma TokenizeStep(s: string)
    ensures TrimStart(s, IsPySpace) == [] ==> Tokenize(s) == []
    ensures TrimStart(s, IsPySpace) != [] ==>
      var rest := TrimStart(s, IsPySpace);
      var n := WordLength(rest);
      0 < n && Tokenize(s) == [rest[..n]] + Tokenize(rest[n..])
  {
  }

  /** Tokenizing loses and invents nothing: the words, run together, are the text
      without its whitespace. */
  lemma {:induction false} TokenizeCovers(s: string)
    ensures ConcatMap(Id, Tokenize(s)) == NonSpace(s)
    decreases |s|
  {
    var rest := TrimStart(s, IsPySpace);
    NonSpaceTrimStart(s);
    TokenizeStep(s);
    if rest != [] {
      var n := WordLength(rest);
      var w, more := rest[..n], rest[n..];
      SplitAt(rest, n);
      NonSpaceAppend(w, more);
      LeadingWord(rest);
      NonSpaceOfWord(w);
      TokenizeCovers(more);
      ConcatMapCons(Id, w, Tokenize(more));
      assert ConcatMap(Id, Tokenize(s)) == w + ConcatMap(Id, Tokenize(more));
    }
  }

  /** There are no words exactly when the text is whitespace only. */
  lemma TokenizeEmptyIff(s: string)
    ensures Tokenize(s) == [] <==> AllSpace(s, IsPySpace)
  {
    var rest := TrimStart(s, IsPySpace);
    if rest == [] {
      assert |s| - |rest| == |s|;
    } else {
      assert rest[0] == s[|s| - |rest|];
    }
  }

  lemma TokenizeLeadingSpace(c: char, s: string)
    requires IsPySpace(c)
    ensures Tokenize([c] + s) == Tokenize(s)
  {
    assert ([c] + s)[1..] == s;
    assert TrimStart([c] + s, IsPySpace) == TrimStart(s, IsPySpace);
  }

  lemma {:induction false} WordLengthOfWord(w: string, s: string)
    requires forall i :: 0 <= i < |w| ==> !IsPySpace(w[i])
    requires s == [] || IsPySpace(s[0])
    ensures WordLength(w + s) == |w|
    decreases |w|
  {
    if w == [] {
      assert w + s == s;
    } else {
      assert (w + s)[1..] == w[1..] + s;
      WordLengthOfWord(w[1..], s);
    }
  }

  lemma TokenizeLeadingWord(w: string, s: string)
    requires IsWord(w)
    requires s == [] || IsPySpace(s[0])
    ensures Tokenize(w + s) == [w] + Tokenize(s)
  {
    var t := w + s;
    assert TrimStart(t, IsPySpace) == t by { assert t[0] == w[0]; }
    WordLengthOfWord(w, s);
    TokenizeStep(t);
    assert t[..|w|] == w && t[|w|..] == s;
  }

  /** Splitting words joined by single spaces gives the words back. */
  lemma {:induction false} TokenizeJoin(words: seq<string>)
    requires AllWords(words)
    ensures Tokenize(Join(" ", words)) == words
    decreases |words|
  {
    if |words| == 1 {
      TokenizeLeadingWord(words[0], "");
      assert words[0] + "" == words[0];
    } else if |words| > 1 {
      var rest := Join(" ", words[1..]);
      TokenizeJoin(words[1..]);
      TokenizeLeadingWord(words[0], " " + rest);
      TokenizeLeadingSpace(' ', rest);
      AppendAssoc(words[0], " ", rest);
      ConsHeadTail(words);
    }
  }

  /** The list comprehension of line 38: each word replaced by its lemma, in order. */
  function LemmatizeAll(words: seq<string>, lemmatize: string -> string): (tokens: seq<string>)
  {
    seq(|words|, i requires 0 <= i < |words| => lemmatize(words[i]))
  }

  /** `preprocess_text`: the lemma of every word of the cleaned text, in order. */
  function Preprocess(text: string, lemmatize: string -> string): (tokens: seq<string>)
  {
    LemmatizeAll(Tokenize(Clean(text)), lemmatize)
  }

  /** Every word contributes its lemma, and nothing else is a token. */
  lemma LemmatizeAllTokens(words: seq<string>, lemmatize: string -> string, t: string)
    ensures t in LemmatizeAll(words, lemmatize) <==> exists w :: w in words && t == lemmatize(w)
  {
    var tokens := LemmatizeAll(words, lemmatize);
    if t in tokens {
      var i :| 0 <= i < |tokens| && tokens[i] == t;
      assert words[i] in words;
    } else {
      forall w | w in words ensures t != lemmatize(w) {
        var i :| 0 <= i < |words| && words[i] == w;
        assert tokens[i] in tokens;
      }
    }
  }

  /** No tokens come out exactly when the input holds no ASCII letter or digit
      (empty, blank or punctuation-only input). */
  lemma PreprocessEmptyIff(text: string, lemmatize: string -> string)
    ensures Preprocess(text, lemmatize) == [] <==> forall i :: 0 <= i < |text| ==> !IsAsciiAlnum(text[i])
  {
    CleanAllSpaceIff(text);
    TokenizeEmptyIff(Clean(text));
    assert |Preprocess(text, lemmatize)| == |Tokenize(Clean(text))|;
  }
}
