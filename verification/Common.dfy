/** Small value types and sequence helpers shared by every component. */
module Common {

  datatype Option<+T> = None | Some(value: T)

  datatype Result<+T, +E> = Ok(value: T) | Err(error: E)

  /** The first `n` elements of `s`, or all of them: the meaning of `s[:n]`. */
  function Take<T>(s: seq<T>, n: nat): (r: seq<T>)
    ensures |r| == if |s| <= n then |s| else n
    ensures r <= s
  {
    if |s| <= n then s else s[..n]
  }

  /** The results of `f`, one after the other. */
  function Collect<T, R>(f: T -> seq<R>, xs: seq<T>): seq<R> {
    if xs == [] then [] else Collect(f, xs[..|xs| - 1]) + f(xs[|xs| - 1])
  }

  lemma {:induction false} CollectConcat<T, R>(f: T -> seq<R>, a: seq<T>, b: seq<T>)
    ensures Collect(f, a + b) == Collect(f, a) + Collect(f, b)
    decreases |b|
  {
    if b == [] {
      assert a + b == a;
    } else {
      assert (a + b)[..|a + b| - 1] == a + b[..|b| - 1];
      CollectConcat(f, a, b[..|b| - 1]);
    }
  }

  lemma CollectOne<T, R>(f: T -> seq<R>, x: T)
    ensures Collect(f, [x]) == f(x)
  {
    assert [x][..0] == [];
    assert Collect(f, [x]) == Collect(f, []) + f(x);
  }

  /** The state after applying the steps in order. */
  function Fold<S, A>(f: (S, A) -> S, s: S, steps: seq<A>): S {
    if steps == [] then s else f(Fold(f, s, steps[..|steps| - 1]), steps[|steps| - 1])
  }

  lemma {:induction false} FoldConcat<S, A>(f: (S, A) -> S, s: S, a: seq<A>, b: seq<A>)
    ensures Fold(f, s, a + b) == Fold(f, Fold(f, s, a), b)
    decreases |b|
  {
    if b == [] {
      assert a + b == a;
    } else {
      assert (a + b)[..|a + b| - 1] == a + b[..|b| - 1];
      FoldConcat(f, s, a, b[..|b| - 1]);
    }
  }

  lemma FoldOne<S, A>(f: (S, A) -> S, s: S, x: A)
    ensures Fold(f, s, [x]) == f(s, x)
  {
    assert [x][..0] == [];
    assert Fold(f, s, [x]) == f(Fold(f, s, []), x);
  }

  lemma Associates<T>(a: seq<T>, b: seq<T>, c: seq<T>)
    ensures a + (b + c) == (a + b) + c
  {
  }

  function Max(a: int, b: int): int { if a < b then b else a }

  function Min(a: int, b: int): int { if a < b then a else b }
}

/** The text operations the source uses on prompts, plans and queries. */
module Text {

  predicate IsSpace(c: char) {
    c == ' ' || c == '\t' || c == '\n' || c == '\r' || c == '\U{0B}' || c == '\U{0C}'
  }

  const SPACES: set<char> := {' ', '\t', '\n', '\r', '\U{0B}', '\U{0C}'}

  /** `s.lstrip(chars)` for the characters `drop` accepts. */
  function StripLeft(s: string, drop: char -> bool): string {
    if s != "" && drop(s[0]) then StripLeft(s[1..], drop) else s
  }

  function StripRight(s: string, drop: char -> bool): string {
    if s != "" && drop(s[|s| - 1]) then StripRight(s[..|s| - 1], drop) else s
  }

  function Strip(s: string, drop: char -> bool): string { StripRight(StripLeft(s, drop), drop) }

  /** Only leading characters that may go are gone. */
  lemma {:induction false} StripLeftLaws(s: string, drop: char -> bool)
    ensures var r := StripLeft(s, drop);
            && (r != "" ==> !drop(r[0])) && |r| <= |s| && r == s[|s| - |r|..]
            && forall i :: 0 <= i < |s| - |r| ==> drop(s[i])
    decreases |s|
  {
    if s != "" && drop(s[0]) { StripLeftLaws(s[1..], drop); }
  }

  lemma {:induction false} StripRightLaws(s: string, drop: char -> bool)
    ensures var r := StripRight(s, drop);
            && (r != "" ==> !drop(r[|r| - 1])) && r <= s && forall i :: |r| <= i < |s| ==> drop(s[i])
    decreases |s|
  {
    if s != "" && drop(s[|s| - 1]) { StripRightLaws(s[..|s| - 1], drop); }
  }

  /** Stripping `s` of `chars` keeps the characters from `i` to `j`. */
  predicate KeepsRange(s: string, chars: set<char>, i: nat, j: nat) {
    && i <= j <= |s|
    && (forall k :: 0 <= k < i ==> s[k] in chars) && (forall k :: j <= k < |s| ==> s[k] in chars)
    && (i < j ==> s[i] !in chars && s[j - 1] !in chars)
  }

  /** `r` is what is left of `s` without the characters in front and at the end that are among `chars`. */
  predicate Strips(s: string, chars: set<char>, r: string) {
    exists i, j :: 0 <= i <= j <= |s| && KeepsRange(s, chars, i, j) && r == s[i..j]
  }

  lemma StripLaws(s: string, drop: char -> bool, chars: set<char>)
    requires forall c :: drop(c) <==> c in chars
    ensures Strips(s, chars, Strip(s, drop))
  {
    StripLeftLaws(s, drop);
    var left := StripLeft(s, drop);
    StripRightLaws(left, drop);
    var r, i := StripRight(left, drop), |s| - |left|;
    forall k | i + |r| <= k < |s|
      ensures s[k] in chars
    {
      assert s[k] == left[k - i];
    }
    assert KeepsRange(s, chars, i, i + |r|);
    assert r == s[i..i + |r|];
  }

  /** There is only one way to strip a text. */
  lemma StripIsUnique(s: string, chars: set<char>, x: string, y: string)
    requires Strips(s, chars, x) && Strips(s, chars, y)
    ensures x == y
  {
    var i, j :| 0 <= i <= j <= |s| && KeepsRange(s, chars, i, j) && x == s[i..j];
    var k, l :| 0 <= k <= l <= |s| && KeepsRange(s, chars, k, l) && y == s[k..l];
    RangeIsUnique(s, chars, i, j, k, l);
  }

  lemma RangeIsUnique(s: string, chars: set<char>, i: nat, j: nat, k: nat, l: nat)
    requires KeepsRange(s, chars, i, j) && KeepsRange(s, chars, k, l)
    ensures (i == j && k == l) || (i == k && j == l)
  {
  }

  /** Text already without surrounding `drop` characters is left alone. */
  lemma {:induction false} StripOfTrimmed(s: string, drop: char -> bool)
    requires s == "" || (!drop(s[0]) && !drop(s[|s| - 1]))
    ensures Strip(s, drop) == s
  {
  }

  function ToUpper(c: char): char {
    if 'a' <= c <= 'z' then (c as int - 'a' as int + 'A' as int) as char else c
  }

  function ToLower(c: char): char {
    if 'A' <= c <= 'Z' then (c as int - 'A' as int + 'a' as int) as char else c
  }

  function Upper(s: string): string { seq(|s|, i requires 0 <= i < |s| => ToUpper(s[i])) }

  function Lower(s: string): string { seq(|s|, i requires 0 <= i < |s| => ToLower(s[i])) }

  predicate OneLine(text: string) { '\n' !in text }

  /** `text.split("\n")`: never empty. */
  function Lines(text: string): (lines: seq<string>)
    ensures lines != []
  {
    if '\n' !in text then [text]
    else var i := LineEnd(text); [text[..i]] + Lines(text[i + 1..])
  }

  function LineEnd(text: string): (i: nat)
    requires '\n' in text
    ensures i < |text| && text[i] == '\n' && '\n' !in text[..i]
  {
    if text[0] == '\n' then 0 else 1 + LineEnd(text[1..])
  }

  lemma {:induction false} LinesAreLines(text: string)
    ensures forall l :: l in Lines(text) ==> OneLine(l)
    decreases |text|
  {
    if '\n' in text { LinesAreLines(text[LineEnd(text) + 1..]); }
  }
}
