/**
 * The JavaScript string and array built-ins the analyzers lean on, written out:
 * `includes`, `indexOf`, `startsWith`, `toLowerCase`/`toUpperCase` (ASCII letters),
 * `trim` emptiness, `split('.').pop()`, `join`, number-to-string, and the
 * order-preserving de-duplication `[...new Set(xs)]`.
 */
module Text {

  /** `sub` occurs in `s` at offset `i`. */
  predicate MatchesAt(s: string, sub: string, i: nat) {
    i + |sub| <= |s| && s[i..i + |sub|] == sub
  }

  /** `s.includes(sub)`. */
  predicate Contains(s: string, sub: string) {
    exists i :: 0 <= i <= |s| && MatchesAt(s, sub, i)
  }

  /** `s.startsWith(p)`. */
  predicate StartsWith(s: string, p: string) {
    MatchesAt(s, p, 0)
  }

  function IndexFrom(s: string, sub: string, i: nat): (r: int)
    decreases |s| - i
    ensures r == -1 || (i <= r && MatchesAt(s, sub, r))
    ensures forall j: nat :: i <= j && (r == -1 || j < r) ==> !MatchesAt(s, sub, j)
  {
    if i + |sub| > |s| then -1
    else if s[i..i + |sub|] == sub then i
    else IndexFrom(s, sub, i + 1)
  }

  /** `s.indexOf(sub)`: the first offset at which `sub` occurs, or -1. */
  function IndexOf(s: string, sub: string): (r: int)
    ensures r >= 0 <==> Contains(s, sub)
    ensures r >= 0 ==> MatchesAt(s, sub, r) && forall j: nat :: j < r ==> !MatchesAt(s, sub, j)
  {
    IndexFrom(s, sub, 0)
  }

  function LowerChar(c: char): char {
    if 'A' <= c <= 'Z' then (c as int + 32) as char else c
  }

  function UpperChar(c: char): char {
    if 'a' <= c <= 'z' then (c as int - 32) as char else c
  }

  /** `s.toLowerCase()`, restricted to ASCII letters. */
  function ToLower(s: string): string {
    seq(|s|, i requires 0 <= i < |s| => LowerChar(s[i]))
  }

  /** `s.toUpperCase()`, restricted to ASCII letters. */
  function ToUpper(s: string): string {
    seq(|s|, i requires 0 <= i < |s| => UpperChar(s[i]))
  }

  /** The characters that JavaScript's `trim` and the regular-expression class `\s` treat as white space. */
  predicate IsSpace(c: char) {
    c == ' ' || c == '\t' || c == '\n' || c == '\r' || c == '\U{000B}' || c == '\U{000C}'
    || c == '\U{00A0}' || c == '\U{1680}' || ('\U{2000}' <= c <= '\U{200A}')
    || c == '\U{2028}' || c == '\U{2029}' || c == '\U{202F}' || c == '\U{205F}'
    || c == '\U{3000}' || c == '\U{FEFF}'
  }

  /** `s.trim().length === 0`. */
  predicate IsBlank(s: string) {
    forall i :: 0 <= i < |s| ==> IsSpace(s[i])
  }

  /** `s.split('.').pop()`: the text after the last dot, or all of `s` when it has none. */
  function AfterLastDot(s: string): (r: string)
    ensures '.' !in r
    ensures |r| <= |s| && r == s[|s| - |r|..]
    ensures |r| < |s| ==> s[|s| - |r| - 1] == '.'
    ensures '.' !in s ==> r == s
  {
    if |s| == 0 then ""
    else if s[|s| - 1] == '.' then ""
    else
      var r' := AfterLastDot(s[..|s| - 1]);
      assert s[..|s| - 1][|s| - 1 - |r'|..] + [s[|s| - 1]] == s[|s| - |r'| - 1..];
      r' + [s[|s| - 1]]
  }

  /** `parts.join(sep)`. */
  function Join(parts: seq<string>, sep: string): string {
    if |parts| == 0 then ""
    else if |parts| == 1 then parts[0]
    else parts[0] + sep + Join(parts[1..], sep)
  }

  function DigitChar(d: nat): char
    requires d < 10
  {
    "0123456789"[d]
  }

  /** The decimal text of a non-negative integer, as template literals print it. */
  function NatToString(n: nat): string {
    if n < 10 then [DigitChar(n)] else NatToString(n / 10) + [DigitChar(n % 10)]
  }

  /** `xs.map(f)`: `f` applied to every element, in order. */
  function MapSeq<A, B>(xs: seq<A>, f: A -> B): (r: seq<B>)
    ensures |r| == |xs|
    ensures forall i :: 0 <= i < |xs| ==> r[i] == f(xs[i])
  {
    if |xs| == 0 then [] else MapSeq(xs[..|xs| - 1], f) + [f(xs[|xs| - 1])]
  }

  predicate Distinct<T(==)>(xs: seq<T>) {
    forall i, j :: 0 <= i < j < |xs| ==> xs[i] != xs[j]
  }

  /**
   * `[...new Set(xs)]`: each value once, at the place of its first occurrence.
   */
  function Dedup<T(==)>(xs: seq<T>): (r: seq<T>)
    ensures forall i :: 0 <= i < |xs| ==> xs[i] in r
    ensures forall i :: 0 <= i < |r| ==> r[i] in xs
    ensures Distinct(r)
    ensures |r| <= |xs|
  {
    if |xs| == 0 then []
    else
      var d := Dedup(xs[..|xs| - 1]);
      if xs[|xs| - 1] in d then d else d + [xs[|xs| - 1]]
  }

  /** De-duplicating `a + b` keeps the de-duplicated `a` in front, in its order. */
  lemma {:induction false} DedupKeepsPrefix<T>(a: seq<T>, b: seq<T>)
    ensures |Dedup(a)| <= |Dedup(a + b)| && Dedup(a + b)[..|Dedup(a)|] == Dedup(a)
    decreases |b|
  {
    if |b| == 0 {
      assert a + b == a;
    } else {
      var b' := b[..|b| - 1];
      DedupKeepsPrefix(a, b');
      assert (a + b)[..|a + b| - 1] == a + b';
    }
  }

  /** A list with no repeats is its own de-duplication. */
  /** The position of the first occurrence of `x` in `xs`. */
  function FirstIndex<T(==)>(xs: seq<T>, x: T): (i: nat)
    requires x in xs
    ensures i < |xs| && xs[i] == x
    ensures forall k :: 0 <= k < i ==> xs[k] != x
  {
    if xs[0] == x then 0 else 1 + FirstIndex(xs[1..], x)
  }

  lemma {:induction false} FirstIndexPrefix<T>(p: seq<T>, q: seq<T>, x: T)
    requires x in p
    ensures FirstIndex(p + q, x) == FirstIndex(p, x)
  {
    if p[0] != x {
      assert (p + q)[1..] == p[1..] + q;
      FirstIndexPrefix(p[1..], q, x);
    }
  }

  /** Every element of `d` occurs in `xs`, and `d` lists them in the order of their first occurrences there. */
  predicate FirstOccurrenceOrder<T(==)>(xs: seq<T>, d: seq<T>) {
    forall i, j :: 0 <= i < j < |d| ==> d[i] in xs && d[j] in xs && FirstIndex(xs, d[i]) < FirstIndex(xs, d[j])
  }

  /** `Dedup` keeps the elements in the order of their first occurrences. */
  lemma {:induction false} DedupFirstOccurrence<T>(xs: seq<T>)
    ensures FirstOccurrenceOrder(xs, Dedup(xs))
  {
    if |xs| > 0 {
      var n := |xs| - 1;
      DedupFirstOccurrence(xs[..n]);
      assert xs == xs[..n] + [xs[n]];
      DedupOrderStep(xs[..n], xs[n]);
    }
  }

  lemma DedupOrderStep<T>(p: seq<T>, y: T)
    requires FirstOccurrenceOrder(p, Dedup(p))
    ensures FirstOccurrenceOrder(p + [y], Dedup(p + [y]))
  {
    var xs := p + [y];
    assert xs[..|xs| - 1] == p;
    FirstIndexesKept(p, y);
    if y !in Dedup(p) {
      assert y !in p;
      assert Dedup(xs) == Dedup(p) + [y];
      ExtendOrder(p, Dedup(p), y);
    }
  }

  lemma FirstIndexesKept<T>(p: seq<T>, y: T)
    ensures forall e :: e in p ==> FirstIndex(p + [y], e) == FirstIndex(p, e)
  {
    forall e | e in p ensures FirstIndex(p + [y], e) == FirstIndex(p, e) {
      FirstIndexPrefix(p, [y], e);
    }
  }

  lemma ExtendOrder<T>(p: seq<T>, d: seq<T>, y: T)
    requires y !in p && FirstOccurrenceOrder(p, d)
    requires forall e :: e in d ==> e in p
    requires forall e :: e in p ==> FirstIndex(p + [y], e) == FirstIndex(p, e)
    ensures FirstOccurrenceOrder(p + [y], d + [y])
  {
    var xs := p + [y];
    assert FirstIndex(xs, y) == |p|;
    forall i | 0 <= i < |d| ensures d[i] in p && FirstIndex(xs, d[i]) < |p| {
      assert d[i] in d;
    }
  }

  lemma {:induction false} DedupOfDistinct<T>(xs: seq<T>)
    requires Distinct(xs)
    ensures Dedup(xs) == xs
  {
    if |xs| > 0 {
      var p := xs[..|xs| - 1];
      assert Distinct(p);
      DedupOfDistinct(p);
      assert xs[|xs| - 1] !in p;
      assert p + [xs[|xs| - 1]] == xs;
    }
  }
}
