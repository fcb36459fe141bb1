/** Extractive context compression (codeintel/domain/compression.py). Term extraction is an arbitrary function. */
module Compression {
  import opened Common
  import opened Text

  datatype Hit = Hit(path: string, content: string, startLine: nat, endLine: nat)

  datatype Policy = Policy(charBudget: nat, perHitMaxChars: nat, contextLines: nat)

  // ---------------------------------------------------------------- joining lines

  /** `"\n".join(lines)` */
  function JoinLines(lines: seq<string>): string {
    if lines == [] then ""
    else if |lines| == 1 then lines[0]
    else lines[0] + "\n" + JoinLines(lines[1..])
  }

  predicate AllOneLine(lines: seq<string>) { forall i :: 0 <= i < |lines| ==> OneLine(lines[i]) }

  function Newlines(text: string): nat {
    if text == "" then 0 else (if text[0] == '\n' then 1 else 0) + Newlines(text[1..])
  }

  lemma {:induction false} NewlinesOfLine(text: string)
    requires OneLine(text)
    ensures Newlines(text) == 0
    decreases |text|
  {
    if text != "" { NewlinesOfLine(text[1..]); }
  }

  lemma {:induction false} NewlinesOfConcat(a: string, b: string)
    ensures Newlines(a + b) == Newlines(a) + Newlines(b)
    decreases |a|
  {
    if a == "" {
      assert a + b == b;
    } else {
      assert (a + b)[1..] == a[1..] + b;
      NewlinesOfConcat(a[1..], b);
    }
  }

  lemma HeadLine(line: string, rest: string)
    requires OneLine(line)
    ensures Lines(line + "\n" + rest) == [line] + Lines(rest)
    ensures Newlines(line + "\n" + rest) == 1 + Newlines(rest)
  {
    var text := line + "\n" + rest;
    assert text[|line|] == '\n';
    FirstNewline(line, rest);
    assert text[..|line|] == line && text[|line| + 1..] == rest;
    assert text == line + ("\n" + rest);
    NewlinesOfConcat(line, "\n" + rest);
    NewlinesOfLine(line);
    assert ("\n" + rest)[1..] == rest;
  }

  lemma {:induction false} FirstNewline(line: string, rest: string)
    requires OneLine(line)
    ensures '\n' in line + "\n" + rest && LineEnd(line + "\n" + rest) == |line|
    decreases |line|
  {
    var text := line + "\n" + rest;
    assert text[|line|] == '\n';
    if line != "" {
      assert text[1..] == line[1..] + "\n" + rest;
      FirstNewline(line[1..], rest);
    }
  }

  // ---------------------------------------------------------------- the densest line

  /** How many distinct query terms a line holds. */
  function Density(tokens: string -> set<string>, terms: set<string>): string -> nat { line => |tokens(line) * terms| }

  /** The first line with the most query terms. */
  predicate IsDensest(d: string -> nat, lines: seq<string>, i: nat) {
    && i < |lines|
    && (forall j :: 0 <= j < |lines| ==> d(lines[j]) <= d(lines[i]))
    && (forall j :: 0 <= j < i ==> d(lines[j]) < d(lines[i]))
  }

  function Densest(d: string -> nat, lines: seq<string>): (i: nat)
    requires lines != []
    ensures i < |lines|
  {
    if |lines| == 1 then 0
    else
      var before, last := Densest(d, lines[..|lines| - 1]), |lines| - 1;
      if d(lines[last]) > d(lines[before]) then last else before
  }

  lemma {:induction false} DensestLaws(d: string -> nat, lines: seq<string>)
    requires lines != []
    ensures IsDensest(d, lines, Densest(d, lines))
    decreases |lines|
  {
    if |lines| > 1 { DensestLaws(d, lines[..|lines| - 1]); }
  }

  lemma DensestIsUnique(d: string -> nat, lines: seq<string>, i: nat, j: nat)
    requires IsDensest(d, lines, i) && IsDensest(d, lines, j)
    ensures i == j
  {
    assert d(lines[i]) == d(lines[j]);
  }

  method DensestLine(tokens: string -> set<string>, lines: seq<string>, terms: set<string>) returns (best: nat)
    requires lines != []
    ensures best < |lines| && IsDensest(Density(tokens, terms), lines, best)
  {
    ghost var d := Density(tokens, terms);
    best := 0;
    var bestHits: int := -1;
    for i := 0 to |lines|
      invariant i == 0 ==> bestHits == -1 && best == 0
      invariant i > 0 ==> best < i && bestHits == d(lines[best])
      invariant forall j :: 0 <= j < i ==> d(lines[j]) <= bestHits
      invariant forall j :: 0 <= j < best ==> d(lines[j]) < bestHits
    {
      var hits := |tokens(lines[i]) * terms|;
      assert hits == d(lines[i]);
      if hits > bestHits { best, bestHits := i, hits; }
    }
  }

  // ---------------------------------------------------------------- the window

  /** First and last (exclusive) line of the window around a centre. */
  function Window(count: nat, center: nat, context: nat): (w: (nat, nat))
    requires center < count
    ensures w.0 <= center < w.1 <= count && w.1 - w.0 == Min(2 * context + 1, count)
  {
    var span := 2 * context + 1;
    var start := if center < context then 0 else center - context;
    var end := Min(count, start + span);
    (if end < span then 0 else end - span, end)
  }

  /** As many lines on either side of the centre as the text has; what one side lacks the other gets. */
  lemma WindowIsCentred(count: nat, center: nat, context: nat)
    requires center < count
    ensures var w := Window(count, center, context);
            && (context <= center && center + context < count ==> w == (center - context, center + context + 1))
            && (center < context ==> w.0 == 0)
            && (center + context >= count ==> w.1 == count)
  {
  }

  function Center(tokens: string -> set<string>, lines: seq<string>, terms: set<string>): (i: nat)
    requires lines != []
    ensures i < |lines|
  {
    if terms == {} then 0 else Densest(Density(tokens, terms), lines)
  }

  /** The window is centred on the first line with the most query terms, also when there are no terms at all. */
  lemma CenterIsDensest(tokens: string -> set<string>, lines: seq<string>, terms: set<string>)
    requires lines != []
    ensures IsDensest(Density(tokens, terms), lines, Center(tokens, lines, terms))
  {
    if terms == {} {
      forall j | 0 <= j < |lines|
        ensures Density(tokens, terms)(lines[j]) == 0
      {
        assert tokens(lines[j]) * terms == {};
      }
    } else {
      DensestLaws(Density(tokens, terms), lines);
    }
  }

  method FindCenter(tokens: string -> set<string>, lines: seq<string>, terms: set<string>) returns (center: nat)
    requires lines != []
    ensures center == Center(tokens, lines, terms)
  {
    center := 0;
    if terms != {} {
      center := DensestLine(tokens, lines, terms);
      DensestLaws(Density(tokens, terms), lines);
      DensestIsUnique(Density(tokens, terms), lines, center, Densest(Density(tokens, terms), lines));
    }
  }

  method BestWindow(tokens: string -> set<string>, content: string, terms: set<string>, context: nat)
    returns (text: string, offset: nat)
    ensures var lines := Lines(content); var w := Window(|lines|, Center(tokens, lines, terms), context);
            text == JoinLines(lines[w.0..w.1]) && offset == w.0
  {
    var lines := Lines(content);
    var span := 2 * context + 1;
    var center := FindCenter(tokens, lines, terms);
    var start := if center < context then 0 else center - context;
    var end := Min(|lines|, start + span);
    start := if end < span then 0 else end - span;
    text, offset := JoinLines(lines[start..end]), start;
  }

  // ---------------------------------------------------------------- one hit

  /** What a hit is cut down to. */
  function Compressed(tokens: string -> set<string>, hit: Hit, terms: set<string>, p: Policy): Hit {
    var lines := Lines(hit.content);
    var w := Window(|lines|, Center(tokens, lines, terms), p.contextLines);
    var text := Take(JoinLines(lines[w.0..w.1]), p.perHitMaxChars);
    hit.(content := text, startLine := hit.startLine + w.0, endLine := hit.startLine + w.0 + Newlines(text))
  }

  /** The text `kept` is made of whole lines of `lines` and a prefix of one more. */
  predicate Cut(lines: seq<string>, kept: seq<string>) {
    && 0 < |kept| <= |lines|
    && (forall i :: 0 <= i < |kept| - 1 ==> kept[i] == lines[i])
    && kept[|kept| - 1] <= lines[|kept| - 1]
  }

  lemma CutSingle(line: string, text: string)
    requires OneLine(line) && text <= line
    ensures Lines(text) == [text] && Newlines(text) == 0
  {
    assert OneLine(text) by { assert forall c :: c in text ==> c in line; }
    NewlinesOfLine(text);
  }

  lemma CutMore(line: string, rest: seq<string>, kept: seq<string>)
    requires Cut(rest, kept)
    ensures Cut([line] + rest, [line] + kept)
  {
    var all, mine := [line] + rest, [line] + kept;
    forall i | 0 <= i < |mine| - 1
      ensures mine[i] == all[i]
    {
      if i > 0 { assert kept[i - 1] == rest[i - 1]; }
    }
  }

  predicate Split(lines: seq<string>, text: string) { Cut(lines, Lines(text)) && Newlines(text) == |Lines(text)| - 1 }

  lemma SplitWithin(lines: seq<string>, text: string)
    requires lines != [] && OneLine(lines[0]) && text <= lines[0]
    ensures Split(lines, text)
  {
    CutSingle(lines[0], text);
  }

  lemma SplitBeyond(lines: seq<string>, tail: string)
    requires |lines| > 1 && OneLine(lines[0]) && Split(lines[1..], tail)
    ensures Split(lines, lines[0] + "\n" + tail)
  {
    HeadLine(lines[0], tail);
    CutMore(lines[0], lines[1..], Lines(tail));
    assert lines == [lines[0]] + lines[1..];
  }

  lemma TakeBeyond(line: string, rest: string, n: nat)
    requires |line| < n <= |line| + 1 + |rest|
    ensures (line + "\n" + rest)[..n] == line + "\n" + rest[..n - |line| - 1]
  {
  }

  /** Any prefix of joined lines splits back into those lines, the last one perhaps cut short. */
  lemma {:induction false} PrefixOfJoin(lines: seq<string>, n: nat)
    requires lines != [] && AllOneLine(lines) && n <= |JoinLines(lines)|
    ensures Split(lines, JoinLines(lines)[..n])
    decreases |lines|
  {
    if |lines| == 1 || n <= |lines[0]| {
      SplitWithin(lines, JoinLines(lines)[..n]);
    } else {
      PrefixOfJoin(lines[1..], n - |lines[0]| - 1);
      TakeBeyond(lines[0], JoinLines(lines[1..]), n);
      SplitBeyond(lines, JoinLines(lines[1..])[..n - |lines[0]| - 1]);
    }
  }

  lemma WindowLines(content: string, a: nat, b: nat)
    requires a <= b <= |Lines(content)|
    ensures AllOneLine(Lines(content)[a..b])
  {
    var lines := Lines(content);
    LinesAreLines(content);
    forall i | 0 <= i < b - a
      ensures OneLine(lines[a..b][i])
    {
      assert lines[a + i] in lines;
    }
  }

  lemma KeptText(window: seq<string>, limit: nat)
    requires window != [] && AllOneLine(window)
    ensures Split(window, Take(JoinLines(window), limit))
  {
    var all := JoinLines(window);
    var n := |Take(all, limit)|;
    PrefixOfJoin(window, n);
    assert all[..n] == Take(all, limit);
  }

  /**
   * Provenance is exact: the kept text splits into exactly the source lines its new start and end name,
   * the last of them perhaps cut short, all inside a window of min(2c + 1, n) lines around the first line
   * with the most query terms.
   */
  lemma ProvenanceIsExact(tokens: string -> set<string>, hit: Hit, terms: set<string>, p: Policy)
    ensures var lines, kept := Lines(hit.content), Compressed(tokens, hit, terms, p);
            var center := Center(tokens, lines, terms); var w := Window(|lines|, center, p.contextLines);
            && IsDensest(Density(tokens, terms), lines, center)
            && kept.startLine == hit.startLine + w.0
            && kept.endLine - kept.startLine + 1 == |Lines(kept.content)|
            && kept.endLine < hit.startLine + w.1
            && Cut(lines[w.0..w.1], Lines(kept.content))
            && |kept.content| <= p.perHitMaxChars && kept.path == hit.path
  {
    var lines := Lines(hit.content);
    CenterIsDensest(tokens, lines, terms);
    var w := Window(|lines|, Center(tokens, lines, terms), p.contextLines);
    WindowLines(hit.content, w.0, w.1);
    KeptText(lines[w.0..w.1], p.perHitMaxChars);
  }

  lemma {:induction false} JoinPrefix(lines: seq<string>, k: nat)
    requires 0 < k <= |lines|
    ensures JoinLines(lines[..k]) <= JoinLines(lines)
    decreases |lines|
  {
    if k == |lines| {
      assert lines[..k] == lines;
    } else if k > 1 {
      assert lines[..k][1..] == lines[1..][..k - 1];
      JoinPrefix(lines[1..], k - 1);
    } else {
      assert lines[..k] == [lines[0]];
    }
  }

  /**
   * The line the window was chosen for survives the per-hit cut exactly when everything from the window's
   * start through that line fits: the cut is taken from the front of the window, not around the line.
   */
  lemma CenterSurvivesIff(tokens: string -> set<string>, hit: Hit, terms: set<string>, p: Policy)
    ensures var lines := Lines(hit.content); var center := Center(tokens, lines, terms);
            var w := Window(|lines|, center, p.contextLines); var through := JoinLines(lines[w.0..center + 1]);
            through <= Compressed(tokens, hit, terms, p).content <==> |through| <= p.perHitMaxChars
  {
    var lines := Lines(hit.content);
    var center := Center(tokens, lines, terms);
    var w := Window(|lines|, center, p.contextLines);
    var window := lines[w.0..w.1];
    assert window[..center + 1 - w.0] == lines[w.0..center + 1];
    JoinPrefix(window, center + 1 - w.0);
  }

  /** The whole window survives exactly when it fits the per-hit limit, the first hit's window like any other. */
  lemma WindowSurvivesIff(tokens: string -> set<string>, hit: Hit, terms: set<string>, p: Policy)
    ensures var lines := Lines(hit.content); var w := Window(|lines|, Center(tokens, lines, terms), p.contextLines);
            var window := JoinLines(lines[w.0..w.1]);
            Compressed(tokens, hit, terms, p).content == window <==> |window| <= p.perHitMaxChars
  {
  }

  /** A single hit of one long line is cut, although it is the top hit. */
  lemma TopHitIsCut(tokens: string -> set<string>, hit: Hit, budget: nat, context: nat)
    requires hit.content == "ab"
    ensures var p := Policy(budget, 1, context); var lines := Lines(hit.content);
            var w := Window(|lines|, Center(tokens, lines, {}), context);
            Compressed(tokens, hit, {}, p).content != JoinLines(lines[w.0..w.1])
  {
    assert Lines("ab") == ["ab"];
    var lines := Lines(hit.content);
    var w := Window(|lines|, Center(tokens, lines, {}), context);
    assert lines[w.0..w.1] == ["ab"];
    WindowSurvivesIff(tokens, hit, {}, Policy(budget, 1, context));
  }

  // ---------------------------------------------------------------- the budget

  function AllCompressed(tokens: string -> set<string>, hits: seq<Hit>, terms: set<string>, p: Policy): (r: seq<Hit>)
    ensures |r| == |hits|
  {
    seq(|hits|, i requires 0 <= i < |hits| => Compressed(tokens, hits[i], terms, p))
  }

  function Chars(hits: seq<Hit>): nat {
    if hits == [] then 0 else Chars(hits[..|hits| - 1]) + |hits[|hits| - 1].content|
  }

  /** The kept hits are the first `k`: within budget after the first, and the next would not fit. */
  predicate IsKept(all: seq<Hit>, budget: nat, k: nat) {
    && k <= |all| && (all != [] ==> k >= 1)
    && (forall j :: 1 < j <= k ==> Chars(all[..j]) <= budget)
    && (k < |all| ==> Chars(all[..k + 1]) > budget)
  }

  lemma KeptIsUnique(all: seq<Hit>, budget: nat, j: nat, k: nat)
    requires IsKept(all, budget, j) && IsKept(all, budget, k)
    ensures j == k
  {
  }

  lemma {:induction false} CharsGrow(all: seq<Hit>, j: nat, k: nat)
    requires j <= k <= |all|
    ensures Chars(all[..j]) <= Chars(all[..k])
    decreases k
  {
    if j < k {
      assert all[..k][..k - 1] == all[..k - 1];
      CharsGrow(all, j, k - 1);
    }
  }

  /** The kept hits are the longest prefix within the budget, or the first hit alone. */
  lemma KeptIsLongest(all: seq<Hit>, budget: nat, k: nat)
    requires IsKept(all, budget, k)
    ensures forall j :: 0 <= j <= |all| && Chars(all[..j]) <= budget ==> j <= k
    ensures k <= 1 || Chars(all[..k]) <= budget
  {
    forall j | 0 <= j <= |all| && Chars(all[..j]) <= budget
      ensures j <= k
    {
      if k < j { CharsGrow(all, k + 1, j); }
    }
  }

  /** So what a compression may return is determined by its hits, query and policy. */
  lemma ResultIsDetermined(all: seq<Hit>, budget: nat, a: seq<Hit>, b: seq<Hit>)
    requires IsKept(all, budget, |a|) && a == all[..|a|]
    requires IsKept(all, budget, |b|) && b == all[..|b|]
    ensures a == b
  {
    KeptIsUnique(all, budget, |a|, |b|);
  }

  method CompressOne(tokens: string -> set<string>, hit: Hit, terms: set<string>, p: Policy) returns (kept: Hit)
    ensures kept == Compressed(tokens, hit, terms, p)
  {
    var window, offset := BestWindow(tokens, hit.content, terms, p.contextLines);
    var text := Take(window, p.perHitMaxChars);
    var start := hit.startLine + offset;
    kept := hit.(content := text, startLine := start, endLine := start + Newlines(text));
  }

  /** One more hit of `all` after the first `i`. */
  lemma OneMore(all: seq<Hit>, i: nat)
    requires i < |all|
    ensures all[..i + 1] == all[..i] + [all[i]]
    ensures Chars(all[..i + 1]) == Chars(all[..i]) + |all[i].content|
  {
    CharsSnoc(all[..i], all[i]);
  }

  predicate Fits(all: seq<Hit>, budget: nat, k: nat) {
    k <= |all| && forall j :: 1 < j <= k ==> Chars(all[..j]) <= budget
  }

  lemma FitsMore(all: seq<Hit>, budget: nat, i: nat)
    requires Fits(all, budget, i) && i < |all| && (i == 0 || Chars(all[..i]) + |all[i].content| <= budget)
    ensures Fits(all, budget, i + 1)
  {
    OneMore(all, i);
  }

  lemma FitsNoMore(all: seq<Hit>, budget: nat, i: nat)
    requires Fits(all, budget, i) && (i == |all| || (i > 0 && Chars(all[..i]) + |all[i].content| > budget))
    ensures IsKept(all, budget, i)
  {
    if i < |all| { OneMore(all, i); }
  }

  method CompressHits(tokens: string -> set<string>, hits: seq<Hit>, p: Policy, query: string) returns (out: seq<Hit>)
    ensures var all := AllCompressed(tokens, hits, tokens(query), p);
            IsKept(all, p.charBudget, |out|) && out == all[..|out|]
  {
    out := [];
    var terms := tokens(query);
    ghost var all := AllCompressed(tokens, hits, terms, p);
    var used := 0;
    for i := 0 to |hits|
      invariant |out| == i && Fits(all, p.charBudget, i) && out == all[..i] && used == Chars(all[..i])
    {
      var kept := CompressOne(tokens, hits[i], terms, p);
      assert kept == all[i];
      if out != [] && used + |kept.content| > p.charBudget {
        FitsNoMore(all, p.charBudget, i);
        return;
      }
      FitsMore(all, p.charBudget, i);
      OneMore(all, i);
      used := used + |kept.content|;
      out := out + [kept];
    }
    FitsNoMore(all, p.charBudget, |all|);
  }

  lemma CharsSnoc(hits: seq<Hit>, last: Hit)
    ensures Chars(hits + [last]) == Chars(hits) + |last.content|
  {
    assert (hits + [last])[..|hits|] == hits;
  }

  /**
   * The total kept never exceeds the budget, unless the first hit alone does; then it is bounded by the per-hit limit.
   */
  lemma KeptWithinBudget(tokens: string -> set<string>, hits: seq<Hit>, terms: set<string>, p: Policy, k: nat)
    requires IsKept(AllCompressed(tokens, hits, terms, p), p.charBudget, k)
    ensures hits != [] ==> k >= 1
    ensures Chars(AllCompressed(tokens, hits, terms, p)[..k]) <= Max(p.charBudget, p.perHitMaxChars)
  {
    var all := AllCompressed(tokens, hits, terms, p);
    if k == 1 {
      assert all[..1][..0] == [];
      assert Chars(all[..1]) == Chars([]) + |all[0].content|;
    }
  }
}
