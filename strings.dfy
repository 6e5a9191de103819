/** Text helpers shared by the Python back end and the browser widget. */
module Strings {

  datatype Option<+T> = None | Some(value: T)

  /** The characters for which Python's `str.isspace()` holds. The same set is
      matched by `\s` in a `str` regular expression and removed by `str.strip()`. */
  predicate IsPySpace(c: char) {
    || ('\t' <= c <= '\r')
    || ('\U{1C}' <= c <= '\U{1F}')
    || c == ' ' || c == '\U{85}' || c == '\U{A0}' || c == '\U{1680}'
    || ('\U{2000}' <= c <= '\U{200A}')
    || c == '\U{2028}' || c == '\U{2029}' || c == '\U{202F}' || c == '\U{205F}' || c == '\U{3000}'
  }

  /** `s` with its leading characters of class `isSpace` removed. */
  function TrimStart(s: string, isSpace: char -> bool): (r: string)
    ensures |r| <= |s| && r == s[|s| - |r|..]
    ensures forall i :: 0 <= i < |s| - |r| ==> isSpace(s[i])
    ensures r == [] || !isSpace(r[0])
    decreases |s|
  {
    if s != [] && isSpace(s[0]) then TrimStart(s[1..], isSpace) else s
  }

  /** `s` with its trailing characters of class `isSpace` removed. */
  function TrimEnd(s: string, isSpace: char -> bool): (r: string)
    ensures |r| <= |s| && r == s[..|r|]
    ensures forall i :: |r| <= i < |s| ==> isSpace(s[i])
    ensures r == [] || !isSpace(r[|r| - 1])
    decreases |s|
  {
    if s != [] && isSpace(s[|s| - 1]) then TrimEnd(s[..|s| - 1], isSpace) else s
  }

  /** `r` is `s` with only characters of class `isSpace` removed before offset `k` and after `r`. */
  predicate IsStrippedAt(s: string, r: string, k: int, isSpace: char -> bool) {
    && 0 <= k <= |s| - |r| && r == s[k..k + |r|]
    && (forall i :: 0 <= i < k ==> isSpace(s[i]))
    && (forall i :: k + |r| <= i < |s| ==> isSpace(s[i]))
  }

  /** Trimming the start and then the end keeps a slice with only spaces around it. */
  lemma TrimBothAt(s: string, isSpace: char -> bool)
    ensures IsStrippedAt(s, TrimEnd(TrimStart(s, isSpace), isSpace), |s| - |TrimStart(s, isSpace)|, isSpace)
  {
    var t := TrimStart(s, isSpace);
    var r := TrimEnd(t, isSpace);
    var k := |s| - |t|;
    assert t == s[k..];
    forall i | k + |r| <= i < |s| ensures isSpace(s[i]) {
      assert s[i] == t[i - k];
    }
  }

  /** Both ends trimmed: Python's `str.strip()` and JavaScript's `String.prototype.trim()`,
      each with its own whitespace class. */
  function Strip(s: string, isSpace: char -> bool): (r: string)
    ensures exists k :: IsStrippedAt(s, r, k, isSpace)
    ensures r == [] || (!isSpace(r[0]) && !isSpace(r[|r| - 1]))
  {
    TrimBothAt(s, isSpace);
    TrimEnd(TrimStart(s, isSpace), isSpace)
  }

  predicate AllSpace(s: string, isSpace: char -> bool) {
    forall i :: 0 <= i < |s| ==> isSpace(s[i])
  }

  /** Stripping leaves nothing exactly when the text is whitespace only. */
  lemma StripEmptyIff(s: string, isSpace: char -> bool)
    ensures Strip(s, isSpace) == [] <==> AllSpace(s, isSpace)
  {
    var r := Strip(s, isSpace);
    var k :| IsStrippedAt(s, r, k, isSpace);
    if r == [] {
      forall i | 0 <= i < |s| ensures isSpace(s[i]) {
        if i >= k { assert k + |r| <= i; }
      }
    } else {
      assert r[0] == s[k] && !isSpace(r[0]);
    }
  }

  /** Text with no whitespace at either end is its own strip. */
  lemma StripKeepsStripped(s: string, isSpace: char -> bool)
    requires s == [] || (!isSpace(s[0]) && !isSpace(s[|s| - 1]))
    ensures Strip(s, isSpace) == s
  {
    assert TrimStart(s, isSpace) == s;
    assert TrimEnd(s, isSpace) == s;
  }

  /** Stripping twice is stripping once. */
  lemma StripIdempotent(s: string, isSpace: char -> bool)
    ensures Strip(Strip(s, isSpace), isSpace) == Strip(s, isSpace)
  {
    StripKeepsStripped(Strip(s, isSpace), isSpace);
  }

  lemma SplitAt<T>(s: seq<T>, n: nat)
    requires n <= |s|
    ensures s[..n] + s[n..] == s
  {
  }

  lemma ConsHeadTail<T>(s: seq<T>)
    requires s != []
    ensures [s[0]] + s[1..] == s
  {
  }

  lemma AppendAssoc<T>(a: seq<T>, b: seq<T>, c: seq<T>)
    ensures a + b + c == a + (b + c)
  {
  }

  /** Python's `sep.join(xs)`. */
  function Join(sep: string, xs: seq<string>): (r: string)
    decreases |xs|
  {
    if |xs| == 0 then "" else if |xs| == 1 then xs[0] else xs[0] + sep + Join(sep, xs[1..])
  }

  /** The concatenation of `f(x)` over `xs`, in order: text accumulated by a loop of `+=`. */
  function ConcatMap<T>(f: T -> string, xs: seq<T>): string
    decreases |xs|
  {
    if xs == [] then "" else ConcatMap(f, xs[..|xs| - 1]) + f(xs[|xs| - 1])
  }

  lemma {:induction false} ConcatMapAppend<T>(f: T -> string, a: seq<T>, b: seq<T>)
    ensures ConcatMap(f, a + b) == ConcatMap(f, a) + ConcatMap(f, b)
    decreases |b|
  {
    if b == [] {
      assert a + b == a;
    } else {
      var n := |b| - 1;
      assert (a + b)[..|a + b| - 1] == a + b[..n];
      ConcatMapAppend(f, a, b[..n]);
    }
  }

  lemma ConcatMapCons<T>(f: T -> string, x: T, xs: seq<T>)
    ensures ConcatMap(f, [x] + xs) == f(x) + ConcatMap(f, xs)
  {
    ConcatMapAppend(f, [x], xs);
    assert [x][..0] == [];
  }

  /** Block `i` stands between the blocks before it and the blocks after it. */
  lemma ConcatMapAt<T>(f: T -> string, xs: seq<T>, i: nat)
    requires i < |xs|
    ensures ConcatMap(f, xs) == ConcatMap(f, xs[..i]) + f(xs[i]) + ConcatMap(f, xs[i + 1..])
  {
    var pre, post := xs[..i + 1], xs[i + 1..];
    assert xs == pre + post;
    ConcatMapAppend(f, pre, post);
    assert pre[..|pre| - 1] == xs[..i];
  }

  /** `t` occurs in `s` at offset `k`. */
  predicate OccursAt(s: string, t: string, k: int) {
    0 <= k <= |s| - |t| && s[k..k + |t|] == t
  }

  /** `t` occurs in `s`. */
  ghost predicate Contains(s: string, t: string) {
    exists k :: OccursAt(s, t, k)
  }

  lemma ContainsLeft(a: string, b: string)
    ensures Contains(a + b, a)
  {
    assert OccursAt(a + b, a, 0);
  }

  lemma ContainsRight(a: string, b: string)
    ensures Contains(a + b, b)
  {
    assert OccursAt(a + b, b, |a|);
  }

  /** An occurrence inside an occurrence is an occurrence. */
  lemma OccursAtTrans(s: string, m: string, t: string, i: int, j: int)
    requires OccursAt(s, m, i) && OccursAt(m, t, j)
    ensures OccursAt(s, t, i + j)
  {
    forall x | 0 <= x < |t| ensures s[i + j + x] == t[x] {
      assert t[x] == m[j + x] == s[i + j + x];
    }
  }

  lemma ContainsTrans(s: string, m: string, t: string)
    requires Contains(s, m) && Contains(m, t)
    ensures Contains(s, t)
  {
    var i :| OccursAt(s, m, i);
    var j :| OccursAt(m, t, j);
    OccursAtTrans(s, m, t, i, j);
  }

  /** Every item of `sep.join(xs)` occurs in the joined text. */
  lemma {:induction false} JoinHasItems(sep: string, xs: seq<string>)
    ensures forall i :: 0 <= i < |xs| ==> Contains(Join(sep, xs), xs[i])
    decreases |xs|
  {
    if |xs| == 1 {
      assert OccursAt(Join(sep, xs), xs[0], 0);
    } else if |xs| > 1 {
      var rest := Join(sep, xs[1..]);
      assert Join(sep, xs) == xs[0] + sep + rest;
      JoinHasItems(sep, xs[1..]);
      AppendAssoc(xs[0], sep, rest);
      ContainsLeft(xs[0], sep + rest);
      ContainsRight(xs[0] + sep, rest);
      forall i | 1 <= i < |xs| ensures Contains(Join(sep, xs), xs[i]) {
        assert xs[i] == xs[1..][i - 1];
        ContainsTrans(Join(sep, xs), rest, xs[i]);
      }
    }
  }

  /** Each part of a left-grouped concatenation occurs in it. */
  lemma PartsOf3(a: string, b: string, c: string)
    ensures Contains(a + b + c, a) && Contains(a + b + c, b) && Contains(a + b + c, c)
  {
    var s := a + b + c;
    assert OccursAt(s, a, 0);
    assert OccursAt(s, b, |a|);
    assert OccursAt(s, c, |a| + |b|);
  }

  lemma PartsOf4(a: string, b: string, c: string, e: string)
    ensures var s := a + b + c + e; Contains(s, b) && Contains(s, c) && Contains(s, e)
  {
    var s := a + b + c + e;
    assert OccursAt(s, b, |a|);
    assert OccursAt(s, c, |a| + |b|);
    assert OccursAt(s, e, |a| + |b| + |c|);
  }

  lemma PartsOf5(a: string, b: string, c: string, e: string, g: string)
    ensures var s := a + b + c + e + g; Contains(s, b) && Contains(s, c) && Contains(s, e) && Contains(s, g)
  {
    var s := a + b + c + e + g;
    assert OccursAt(s, b, |a|);
    assert OccursAt(s, c, |a| + |b|);
    assert OccursAt(s, e, |a| + |b| + |c|);
    assert OccursAt(s, g, |a| + |b| + |c| + |e|);
  }
}
