/** Symbol extraction and chunking of a syntax tree (codeintel/infrastructure/parser.py). */
module Chunker {
  import opened Common
  import opened CodeModel
  import opened Firsts

  /**
   * A syntax node with what the helpers read off it: the resolved name of a definition, the callee
   * of a call, the base types of a type, the text and targets of an import.
   */
  datatype Node = Node(
    nodeType: string, startByte: nat, endByte: nat, startLine: nat, endLine: nat,
    name: Option<string>, refined: Option<SymbolKind>, callee: Option<string>, bases: seq<string>,
    text: string, targets: seq<string>, children: seq<Node>)

  datatype Grammar = Grammar(
    definitions: map<string, SymbolKind>, importNodes: set<string>, callNodes: set<string>, containers: set<SymbolKind>)
  {
    predicate IsDefinition(n: Node) { n.nodeType in definitions }
  }

  const MAX_DEPTH: nat := 200

  datatype ScopeEntry = ScopeEntry(kind: SymbolKind, name: string)

  function Join(scope: seq<ScopeEntry>): string {
    if scope == [] then ""
    else if |scope| == 1 then scope[0].name
    else Join(scope[..|scope| - 1]) + "." + scope[|scope| - 1].name
  }

  function CurrentScope(scope: seq<ScopeEntry>): string {
    if Join(scope) == "" then MODULE_SCOPE else Join(scope)
  }

  // ---------------------------------------------------------------- first nested definition

  function Size(n: Node): nat
    decreases n, 1
  {
    1 + SizeAll(n.children)
  }

  function SizeAll(nodes: seq<Node>): nat
    decreases nodes, 0
  {
    if nodes == [] then 0 else SizeAll(nodes[..|nodes| - 1]) + Size(nodes[|nodes| - 1])
  }

  lemma {:induction false} SizeConcat(a: seq<Node>, b: seq<Node>)
    ensures SizeAll(a + b) == SizeAll(a) + SizeAll(b)
    decreases |b|
  {
    if b == [] {
      assert a + b == a;
    } else {
      assert (a + b)[..|a + b| - 1] == a + b[..|b| - 1];
      SizeConcat(a, b[..|b| - 1]);
    }
  }

  lemma SizePop(stack: seq<Node>)
    requires stack != []
    ensures var current, rest := stack[|stack| - 1], stack[..|stack| - 1];
            SizeAll(stack) == SizeAll(rest) + 1 + SizeAll(current.children)
  {
    assert Size(stack[|stack| - 1]) == 1 + SizeAll(stack[|stack| - 1].children);
  }

  function Earlier(best: Option<Node>, n: Node): Option<Node> {
    if best.None? || n.startByte < best.value.startByte then Some(n) else best
  }

  /** What the stack search does: pop, keep the earliest definition, descend into anything else. */
  function Search(g: Grammar, stack: seq<Node>, best: Option<Node>): Option<Node>
    decreases SizeAll(stack)
  {
    if stack == [] then best
    else
      var current, rest := stack[|stack| - 1], stack[..|stack| - 1];
      SizePop(stack);
      if g.IsDefinition(current) then Search(g, rest, Earlier(best, current))
      else
        SizeConcat(rest, current.children);
        Search(g, rest + current.children, best)
  }

  function FirstDefinition(g: Grammar, n: Node): Option<Node> { Search(g, n.children, None) }

  /** The stack loop of the source. */
  method FirstDefinitionChild(g: Grammar, n: Node) returns (best: Option<Node>)
    ensures best == FirstDefinition(g, n)
  {
    best := None;
    var stack := n.children;
    while stack != []
      invariant Search(g, stack, best) == FirstDefinition(g, n)
      decreases SizeAll(stack)
    {
      var current := stack[|stack| - 1];
      SizePop(stack);
      stack := stack[..|stack| - 1];
      if g.IsDefinition(current) {
        if best.None? || current.startByte < best.value.startByte { best := Some(current); }
      } else {
        SizeConcat(stack, current.children);
        stack := stack + current.children;
      }
    }
  }

  // ---------------------------------------------------------------- the walk

  /** Everything a walk appends, in order; `tops` are the starts of named top-level definitions. */
  datatype Out = Out(symbols: seq<Symbol>, chunks: seq<Chunk>, references: seq<Reference>, tops: seq<Node>)

  const NOTHING: Out := Out([], [], [], [])

  function Append(a: Out, b: Out): Out {
    Out(a.symbols + b.symbols, a.chunks + b.chunks, a.references + b.references, a.tops + b.tops)
  }

  function ReferencesTo(kind: EdgeKind, from: string, names: seq<string>, line: nat): seq<Reference> {
    seq(|names|, i requires 0 <= i < |names| => Reference(kind, from, names[i], line))
  }

  function FirstLine(text: string): string {
    if text == "" || text[0] == '\n' then "" else [text[0]] + FirstLine(text[1..])
  }

  function Itself(): string -> string { (name: string) => name }

  function ImportOut(n: Node): Out {
    var name := if n.text == "" then "import" else Take(FirstLine(n.text), 200);
    Out([Symbol(ImportKind, name, Take(n.text, 400), n.startLine, n.endLine, n.startByte, n.endByte)],
        [], ReferencesTo(Imports, MODULE_SCOPE, Distinct(n.targets, Itself()), n.startLine), [])
  }

  function CallOut(n: Node, scope: seq<ScopeEntry>): Out {
    if n.callee.None? then NOTHING
    else Out([], [], [Reference(Calls, CurrentScope(scope), n.callee.value, n.startLine)], [])
  }

  function DefinitionKind(g: Grammar, n: Node, scope: seq<ScopeEntry>): SymbolKind
    requires g.IsDefinition(n)
  {
    var kind := if n.nodeType == "type_spec" && n.refined.Some? then n.refined.value else g.definitions[n.nodeType];
    if kind.FunctionKind? && scope != [] && scope[|scope| - 1].kind in g.containers then MethodKind else kind
  }

  predicate IsType(kind: SymbolKind) {
    kind.ClassKind? || kind.StructKind? || kind.InterfaceKind? || kind.EnumKind? || kind.TraitKind?
  }

  function Bases(n: Node, own: string): seq<string> {
    var names := Distinct(n.bases, Itself());
    DropName(names, own)
  }

  function DropName(names: seq<string>, own: string): seq<string> {
    if names == [] then []
    else DropName(names[..|names| - 1], own) + if names[|names| - 1] == own then [] else [names[|names| - 1]]
  }

  function LastComponent(qualified: string): string {
    if '.' !in qualified then qualified
    else if qualified[|qualified| - 1] == '.' then ""
    else LastComponent(qualified[..|qualified| - 1]) + [qualified[|qualified| - 1]]
  }

  function OwnChunk(g: Grammar, n: Node, kind: SymbolKind, qualified: string): Chunk {
    var nested := FirstDefinition(g, n);
    Chunk(qualified, kind, n.startLine, if nested.Some? then nested.value.startLine else n.endLine,
          n.startByte, if nested.Some? then nested.value.startByte else n.endByte, false)
  }

  /** The definition's own symbol, base references and chunk: from its start to its first nested definition. */
  function DefinitionOut(g: Grammar, n: Node, scope: seq<ScopeEntry>, top: bool): Out
    requires g.IsDefinition(n) && n.name.Some?
  {
    var kind := DefinitionKind(g, n, scope);
    var qualified := Join(scope + [ScopeEntry(kind, n.name.value)]);
    Out([Symbol(kind, n.name.value, qualified, n.startLine, n.endLine, n.startByte, n.endByte)],
        [OwnChunk(g, n, kind, qualified)],
        if IsType(kind) then ReferencesTo(Inherits, qualified, Bases(n, LastComponent(qualified)), n.startLine) else [],
        if top then [n] else [])
  }

  function Entered(g: Grammar, n: Node, scope: seq<ScopeEntry>): seq<ScopeEntry>
    requires g.IsDefinition(n) && n.name.Some?
  {
    scope + [ScopeEntry(DefinitionKind(g, n, scope), n.name.value)]
  }

  /** One child of a walked node. */
  function WalkChild(g: Grammar, n: Node, scope: seq<ScopeEntry>, depth: nat, top: bool): Out
    decreases n, 2
  {
    if n.nodeType in g.importNodes then ImportOut(n)
    else if g.IsDefinition(n) then
      if n.name.None? then Walk(g, n, scope, depth + 1, top)
      else Append(DefinitionOut(g, n, scope, top), Walk(g, n, Entered(g, n, scope), depth + 1, false))
    else
      Append(if n.nodeType in g.callNodes then CallOut(n, scope) else NOTHING, Walk(g, n, scope, depth + 1, top))
  }

  function Walk(g: Grammar, n: Node, scope: seq<ScopeEntry>, depth: nat, top: bool): Out
    decreases n, 1
  {
    if depth > MAX_DEPTH then NOTHING else WalkAll(g, n.children, scope, depth, top)
  }

  function WalkAll(g: Grammar, nodes: seq<Node>, scope: seq<ScopeEntry>, depth: nat, top: bool): Out
    decreases nodes, 0
  {
    if nodes == [] then NOTHING
    else Append(WalkAll(g, nodes[..|nodes| - 1], scope, depth, top),
                WalkChild(g, nodes[|nodes| - 1], scope, depth, top))
  }

  /** The earliest top-level definition seen so far. */
  function EarliestTop(tops: seq<Node>): Option<Node> {
    if tops == [] then None else Earlier(EarliestTop(tops[..|tops| - 1]), tops[|tops| - 1])
  }

  // ---------------------------------------------------------------- the whole file

  function Insert(sorted: seq<Chunk>, c: Chunk): seq<Chunk> {
    if sorted == [] || sorted[|sorted| - 1].startByte <= c.startByte then sorted + [c]
    else Insert(sorted[..|sorted| - 1], c) + [sorted[|sorted| - 1]]
  }

  /** A stable sort by first byte. */
  function SortByStart(chunks: seq<Chunk>): seq<Chunk> {
    if chunks == [] then [] else Insert(SortByStart(chunks[..|chunks| - 1]), chunks[|chunks| - 1])
  }

  function ModuleChunk(root: Node, tops: seq<Node>, sourceLength: nat): seq<Chunk> {
    var first := EarliestTop(tops);
    var end := if first.Some? then first.value.startByte else sourceLength;
    var endLine := if first.Some? then first.value.startLine else root.endLine;
    if end > 0 then [Chunk(MODULE_SCOPE, ImportKind, 1, Max(1, endLine), 0, end, false)] else []
  }

  datatype Parsed = Parsed(symbols: seq<Symbol>, chunks: seq<Chunk>, references: seq<Reference>)

  function Extract(g: Grammar, root: Node, sourceLength: nat): Parsed {
    var o := Walk(g, root, [], 0, true);
    Parsed(o.symbols, SortByStart(o.chunks + ModuleChunk(root, o.tops, sourceLength)), o.references)
  }

  // ---------------------------------------------------------------- well-formed trees

  /** A node's span contains its children's spans, which lie in order without overlap. */
  predicate WellNested(n: Node)
    decreases n, 1
  {
    n.startByte <= n.endByte && AllNested(n.children, n.startByte, n.endByte)
  }

  predicate AllNested(nodes: seq<Node>, lo: nat, hi: nat)
    decreases nodes, 0
  {
    if nodes == [] then lo <= hi
    else
      var last := nodes[|nodes| - 1];
      AllNested(nodes[..|nodes| - 1], lo, last.startByte) && WellNested(last) && last.endByte <= hi
  }

  function Least(a: Option<nat>, b: Option<nat>): Option<nat> {
    if a.None? then b else if b.None? then a else if b.value < a.value then b else a
  }

  /** Where the first definition at or under a node starts. */
  function DefStart(g: Grammar, n: Node): Option<nat>
    decreases n, 1
  {
    if g.IsDefinition(n) then Some(n.startByte) else MinStart(g, n.children)
  }

  function MinStart(g: Grammar, nodes: seq<Node>): Option<nat>
    decreases nodes, 0
  {
    if nodes == [] then None else Least(MinStart(g, nodes[..|nodes| - 1]), DefStart(g, nodes[|nodes| - 1]))
  }

  /** Every definition is non-empty and starts strictly before any definition inside it. */
  predicate Proper(g: Grammar, n: Node)
    decreases n, 1
  {
    && (g.IsDefinition(n) ==>
          n.startByte < n.endByte && (MinStart(g, n.children).Some? ==> n.startByte < MinStart(g, n.children).value))
    && AllProper(g, n.children)
  }

  predicate AllProper(g: Grammar, nodes: seq<Node>)
    decreases nodes, 0
  {
    nodes != [] ==> AllProper(g, nodes[..|nodes| - 1]) && Proper(g, nodes[|nodes| - 1])
  }

  // ---------------------------------------------------------------- the search finds the earliest

  lemma {:induction false} MinStartConcat(g: Grammar, a: seq<Node>, b: seq<Node>)
    ensures MinStart(g, a + b) == Least(MinStart(g, a), MinStart(g, b))
    decreases |b|
  {
    if b == [] {
      assert a + b == a;
    } else {
      assert (a + b)[..|a + b| - 1] == a + b[..|b| - 1];
      MinStartConcat(g, a, b[..|b| - 1]);
    }
  }

  function StartOf(n: Option<Node>): Option<nat> { if n.None? then None else Some(n.value.startByte) }

  lemma {:induction false} SearchFindsLeast(g: Grammar, stack: seq<Node>, best: Option<Node>)
    ensures StartOf(Search(g, stack, best)) == Least(StartOf(best), MinStart(g, stack))
    decreases SizeAll(stack)
  {
    if stack != [] {
      var current, rest := stack[|stack| - 1], stack[..|stack| - 1];
      SizePop(stack);
      if g.IsDefinition(current) {
        SearchFindsLeast(g, rest, Earlier(best, current));
      } else {
        SizeConcat(rest, current.children);
        SearchFindsLeast(g, rest + current.children, best);
        MinStartConcat(g, rest, current.children);
      }
    }
  }

  /** The explicit-stack search returns a nested definition that starts no later than any other. */
  lemma FirstDefinitionIsLeast(g: Grammar, n: Node)
    ensures StartOf(FirstDefinition(g, n)) == MinStart(g, n.children)
  {
    SearchFindsLeast(g, n.children, None);
  }

  lemma {:induction false} MinStartInside(g: Grammar, nodes: seq<Node>, lo: nat, hi: nat)
    requires AllNested(nodes, lo, hi)
    ensures lo <= hi && (MinStart(g, nodes).Some? ==> lo <= MinStart(g, nodes).value <= hi)
    decreases nodes, 0
  {
    if nodes != [] {
      var last := nodes[|nodes| - 1];
      MinStartInside(g, nodes[..|nodes| - 1], lo, last.startByte);
      if !g.IsDefinition(last) { MinStartInside(g, last.children, last.startByte, last.endByte); }
    }
  }

  // ---------------------------------------------------------------- chunks never overlap

  /** Ranges inside [lo, hi), in order, disjoint, none before the first definition; non-empty when strict. */
  predicate Tidy(chunks: seq<Chunk>, lo: nat, hi: nat, floor: Option<nat>, strict: bool) {
    && (forall c :: c in chunks ==>
                      && lo <= c.startByte <= c.endByte <= hi && floor.Some? && floor.value <= c.startByte
                      && (strict ==> c.startByte < c.endByte))
    && (forall i, j :: 0 <= i < j < |chunks| ==> chunks[i].endByte <= chunks[j].startByte)
  }

  lemma TidyAppend(a: seq<Chunk>, b: seq<Chunk>, lo: nat, mid: nat, hi: nat, fa: Option<nat>, fb: Option<nat>,
                   strict: bool)
    requires Tidy(a, lo, mid, fa, strict) && Tidy(b, mid, hi, fb, strict) && lo <= mid <= hi
    ensures Tidy(a + b, lo, hi, Least(fa, fb), strict)
  {
    forall i, j | 0 <= i < j < |a + b|
      ensures (a + b)[i].endByte <= (a + b)[j].startByte
    {
      if i < |a| <= j {
        assert a[i] in a && b[j - |a|] in b;
      }
    }
  }

  lemma {:induction false} WalkChildTidy(g: Grammar, n: Node, scope: seq<ScopeEntry>, depth: nat, top: bool,
                                         strict: bool)
    requires WellNested(n) && (strict ==> Proper(g, n))
    ensures Tidy(WalkChild(g, n, scope, depth, top).chunks, n.startByte, n.endByte, DefStart(g, n), strict)
    decreases n, 2
  {
    if n.nodeType !in g.importNodes {
      MinStartInside(g, n.children, n.startByte, n.endByte);
      if g.IsDefinition(n) {
        if n.name.None? {
          WalkTidy(g, n, scope, depth + 1, top, strict);
          Lower(WalkChild(g, n, scope, depth, top).chunks, n.startByte, n.endByte, MinStart(g, n.children),
                n.startByte, strict);
        } else {
          WalkTidy(g, n, Entered(g, n, scope), depth + 1, false, strict);
          FirstDefinitionIsLeast(g, n);
          var own, inner := DefinitionOut(g, n, scope, top).chunks,
              Walk(g, n, Entered(g, n, scope), depth + 1, false).chunks;
          var end := own[0].endByte;
          assert Tidy(own, n.startByte, end, Some(n.startByte), strict);
          assert Tidy(inner, end, n.endByte, MinStart(g, n.children), strict);
          TidyAppend(own, inner, n.startByte, end, n.endByte, Some(n.startByte), MinStart(g, n.children), strict);
        }
      } else {
        WalkTidy(g, n, scope, depth + 1, top, strict);
        assert WalkChild(g, n, scope, depth, top).chunks == Walk(g, n, scope, depth + 1, top).chunks;
      }
    }
  }

  /** A smaller floor is still a floor. */
  lemma Lower(chunks: seq<Chunk>, lo: nat, hi: nat, floor: Option<nat>, lower: nat, strict: bool)
    requires Tidy(chunks, lo, hi, floor, strict) && (floor.Some? ==> lower <= floor.value)
    ensures Tidy(chunks, lo, hi, Some(lower), strict)
  {
  }

  lemma {:induction false} WalkTidy(g: Grammar, n: Node, scope: seq<ScopeEntry>, depth: nat, top: bool, strict: bool)
    requires AllNested(n.children, n.startByte, n.endByte) && (strict ==> AllProper(g, n.children))
    ensures Tidy(Walk(g, n, scope, depth, top).chunks, n.startByte, n.endByte, MinStart(g, n.children), strict)
    decreases n, 1
  {
    if depth <= MAX_DEPTH { WalkAllTidy(g, n.children, n.startByte, n.endByte, scope, depth, top, strict); }
  }

  lemma {:induction false} WalkAllTidy(g: Grammar, nodes: seq<Node>, lo: nat, hi: nat, scope: seq<ScopeEntry>,
                                       depth: nat, top: bool, strict: bool)
    requires AllNested(nodes, lo, hi) && (strict ==> AllProper(g, nodes))
    ensures Tidy(WalkAll(g, nodes, scope, depth, top).chunks, lo, hi, MinStart(g, nodes), strict)
    decreases nodes, 0
  {
    if nodes != [] {
      var init, last := nodes[..|nodes| - 1], nodes[|nodes| - 1];
      WalkAllTidy(g, init, lo, last.startByte, scope, depth, top, strict);
      WalkChildTidy(g, last, scope, depth, top, strict);
      MinStartInside(g, init, lo, last.startByte);
      var a, b := WalkAll(g, init, scope, depth, top).chunks, WalkChild(g, last, scope, depth, top).chunks;
      TidyAppend(a, b, lo, last.startByte, last.endByte, MinStart(g, init), DefStart(g, last), strict);
      assert Tidy(a + b, lo, hi, MinStart(g, nodes), strict);
    }
  }

  // ---------------------------------------------------------------- the module preamble

  /** At the top level, the first chunk is the first top-level definition's, and none starts before it. */
  predicate TopsOk(o: Out, top: bool) {
    if !top then o.tops == []
    else
      && (o.tops == [] <==> o.chunks == [])
      && (o.tops != [] ==> o.tops[0].startByte == o.chunks[0].startByte)
      && (forall n :: n in o.tops ==> exists c :: c in o.chunks && c.startByte == n.startByte)
  }

  lemma TopsAppend(a: Out, b: Out, top: bool)
    requires TopsOk(a, top) && TopsOk(b, top)
    ensures TopsOk(Append(a, b), top)
  {
    var o := Append(a, b);
    forall n | n in o.tops
      ensures exists c :: c in o.chunks && c.startByte == n.startByte
    {
      if n in a.tops {
        var c :| c in a.chunks && c.startByte == n.startByte;
        assert c in o.chunks;
      } else {
        var c :| c in b.chunks && c.startByte == n.startByte;
        assert c in o.chunks;
      }
    }
  }

  lemma {:induction false} WalkChildTops(g: Grammar, n: Node, scope: seq<ScopeEntry>, depth: nat, top: bool)
    ensures TopsOk(WalkChild(g, n, scope, depth, top), top)
    decreases n, 2
  {
    if n.nodeType !in g.importNodes {
      if g.IsDefinition(n) {
        if n.name.None? {
          WalkTops(g, n, scope, depth + 1, top);
        } else {
          WalkTops(g, n, Entered(g, n, scope), depth + 1, false);
          var own, o := DefinitionOut(g, n, scope, top), WalkChild(g, n, scope, depth, top);
          assert o.tops == own.tops && o.chunks[0] == own.chunks[0];
          assert own.chunks[0] in o.chunks;
        }
      } else {
        WalkTops(g, n, scope, depth + 1, top);
        var o, inner := WalkChild(g, n, scope, depth, top), Walk(g, n, scope, depth + 1, top);
        assert o.tops == inner.tops && o.chunks == inner.chunks;
      }
    }
  }

  lemma {:induction false} WalkTops(g: Grammar, n: Node, scope: seq<ScopeEntry>, depth: nat, top: bool)
    ensures TopsOk(Walk(g, n, scope, depth, top), top)
    decreases n, 1
  {
    if depth <= MAX_DEPTH { WalkAllTops(g, n.children, scope, depth, top); }
  }

  lemma {:induction false} WalkAllTops(g: Grammar, nodes: seq<Node>, scope: seq<ScopeEntry>, depth: nat, top: bool)
    ensures TopsOk(WalkAll(g, nodes, scope, depth, top), top)
    decreases nodes, 0
  {
    if nodes != [] {
      WalkAllTops(g, nodes[..|nodes| - 1], scope, depth, top);
      WalkChildTops(g, nodes[|nodes| - 1], scope, depth, top);
      TopsAppend(WalkAll(g, nodes[..|nodes| - 1], scope, depth, top),
                 WalkChild(g, nodes[|nodes| - 1], scope, depth, top), top);
    }
  }

  /** Of definitions that start no earlier than the first, the earliest is the first. */
  lemma {:induction false} EarliestIsFirst(tops: seq<Node>)
    requires tops != [] && forall n :: n in tops ==> tops[0].startByte <= n.startByte
    ensures EarliestTop(tops) == Some(tops[0])
    decreases |tops|
  {
    if |tops| > 1 {
      var init := tops[..|tops| - 1];
      assert init[0] == tops[0];
      EarliestIsFirst(init);
    } else {
      assert tops[..0] == [];
    }
  }

  // ---------------------------------------------------------------- the sort

  predicate Ascending(chunks: seq<Chunk>) {
    forall i, j :: 0 <= i < j < |chunks| ==> chunks[i].startByte < chunks[j].startByte
  }

  predicate InOrder(chunks: seq<Chunk>) {
    forall i, j :: 0 <= i < j < |chunks| ==> chunks[i].startByte <= chunks[j].startByte
  }

  lemma {:induction false} SortOfSorted(chunks: seq<Chunk>)
    requires InOrder(chunks)
    ensures SortByStart(chunks) == chunks
    decreases |chunks|
  {
    if chunks != [] { SortOfSorted(chunks[..|chunks| - 1]); }
  }

  lemma {:induction false} InsertFront(sorted: seq<Chunk>, c: Chunk)
    requires forall x :: x in sorted ==> c.startByte < x.startByte
    ensures Insert(sorted, c) == [c] + sorted
    decreases |sorted|
  {
    if sorted != [] {
      assert sorted[|sorted| - 1] in sorted;
      InsertFront(sorted[..|sorted| - 1], c);
    }
  }

  /** Ranges inside [0, hi), each ending before the next begins. */
  predicate Apart(chunks: seq<Chunk>, hi: nat) {
    && (forall c :: c in chunks ==> c.startByte <= c.endByte <= hi)
    && (forall i, j :: 0 <= i < j < |chunks| ==> chunks[i].endByte <= chunks[j].startByte)
  }

  /** Non-empty ones, so that first bytes are distinct. */
  predicate Disjoint(chunks: seq<Chunk>, hi: nat) {
    Apart(chunks, hi) && (forall c :: c in chunks ==> c.startByte < c.endByte) && Ascending(chunks)
  }

  lemma TidyIsApart(chunks: seq<Chunk>, lo: nat, hi: nat, floor: Option<nat>, bound: nat, strict: bool)
    requires Tidy(chunks, lo, hi, floor, strict) && hi <= bound
    ensures Apart(chunks, bound) && InOrder(chunks)
    ensures forall c :: c in chunks ==> chunks[0].startByte <= c.startByte
  {
    forall i, j | 0 <= i < j < |chunks|
      ensures chunks[i].startByte <= chunks[j].startByte
    {
      assert chunks[i] in chunks;
    }
    forall c | c in chunks
      ensures chunks[0].startByte <= c.startByte
    {
      var i :| 0 <= i < |chunks| && chunks[i] == c;
    }
  }

  lemma ApartIsDisjoint(chunks: seq<Chunk>, hi: nat)
    requires Apart(chunks, hi) && forall c :: c in chunks ==> c.startByte < c.endByte
    ensures Disjoint(chunks, hi)
  {
    forall i, j | 0 <= i < j < |chunks|
      ensures chunks[i].startByte < chunks[j].startByte
    {
      assert chunks[i] in chunks;
    }
  }

  /** Sorting puts an appended chunk that starts before all the others in front of them. */
  lemma SortMovesToFront(chunks: seq<Chunk>, m: Chunk)
    requires InOrder(chunks) && forall c :: c in chunks ==> m.startByte < c.startByte
    ensures SortByStart(chunks + [m]) == [m] + chunks
  {
    var all := chunks + [m];
    assert all[..|all| - 1] == chunks && all[|all| - 1] == m;
    SortOfSorted(chunks);
    InsertFront(chunks, m);
  }

  lemma ApartFront(chunks: seq<Chunk>, m: Chunk, hi: nat)
    requires Apart(chunks, hi) && m.startByte < m.endByte <= hi
    requires forall c :: c in chunks ==> m.endByte <= c.startByte
    ensures Apart([m] + chunks, hi)
  {
    var all := [m] + chunks;
    forall i, j | 0 <= i < j < |all|
      ensures all[i].endByte <= all[j].startByte
    {
      assert chunks[j - 1] in chunks;
    }
  }

  /** The preamble ends at the first chunk, or at the end of a source without definitions. */
  function PreambleEnd(chunks: seq<Chunk>, sourceLength: nat): nat {
    if chunks == [] then sourceLength else chunks[0].startByte
  }

  lemma PreambleEndsAtFirstChunk(root: Node, o: Out, sourceLength: nat)
    requires TopsOk(o, true) && forall c :: c in o.chunks ==> o.chunks[0].startByte <= c.startByte
    ensures var m := ModuleChunk(root, o.tops, sourceLength); var end := PreambleEnd(o.chunks, sourceLength);
            if end == 0 then m == []
            else |m| == 1 && m[0].headerPath == MODULE_SCOPE && m[0].startByte == 0 && m[0].endByte == end
  {
    if o.tops != [] {
      forall n | n in o.tops
        ensures o.tops[0].startByte <= n.startByte
      {
        var c :| c in o.chunks && c.startByte == n.startByte;
      }
      EarliestIsFirst(o.tops);
    }
  }

  /**
   * Every well-nested tree inside its source yields chunks that are pairwise disjoint and in order. They are
   * the walk's chunks behind a module chunk that runs from byte 0 to the first of them (or to the end of the
   * source), and that is left out exactly when it would be empty.
   */
  lemma ChunksAreApart(g: Grammar, root: Node, sourceLength: nat)
    requires WellNested(root) && root.endByte <= sourceLength
    ensures Apart(Extract(g, root, sourceLength).chunks, sourceLength)
    ensures var walked := Walk(g, root, [], 0, true).chunks; var chunks := Extract(g, root, sourceLength).chunks;
            var end := PreambleEnd(walked, sourceLength);
            if end == 0 then chunks == walked
            else chunks != [] && chunks[1..] == walked
                 && chunks[0].headerPath == MODULE_SCOPE && chunks[0].startByte == 0 && chunks[0].endByte == end
  {
    var o := Walk(g, root, [], 0, true);
    WalkTidy(g, root, [], 0, true, false);
    WalkTops(g, root, [], 0, true);
    TidyIsApart(o.chunks, root.startByte, root.endByte, MinStart(g, root.children), sourceLength, false);
    PreambleEndsAtFirstChunk(root, o, sourceLength);
    var m := ModuleChunk(root, o.tops, sourceLength);
    if m == [] {
      assert o.chunks + m == o.chunks;
      SortOfSorted(o.chunks);
    } else {
      assert m == [m[0]];
      if o.chunks != [] { assert o.chunks[0] in o.chunks; }
      SortMovesToFront(o.chunks, m[0]);
      ApartFront(o.chunks, m[0], sourceLength);
    }
  }

  /**
   * Where every definition is non-empty and starts before the definitions inside it, chunks are non-empty
   * too, and so have distinct first bytes.
   */
  lemma ChunksAreDisjoint(g: Grammar, root: Node, sourceLength: nat)
    requires WellNested(root) && Proper(g, root) && root.endByte <= sourceLength
    ensures Disjoint(Extract(g, root, sourceLength).chunks, sourceLength)
  {
    ChunksAreApart(g, root, sourceLength);
    WalkTidy(g, root, [], 0, true, true);
    ApartIsDisjoint(Extract(g, root, sourceLength).chunks, sourceLength);
  }

  // ---------------------------------------------------------------- which bytes have a chunk

  /** The definitions the walk emits: the named ones it reaches before the depth cut, outside imports. */
  function EmittedAt(g: Grammar, n: Node, depth: nat): seq<Node>
    decreases n, 2
  {
    if n.nodeType in g.importNodes then []
    else (if g.IsDefinition(n) && n.name.Some? then [n] else []) + EmittedUnder(g, n, depth + 1)
  }

  function EmittedUnder(g: Grammar, n: Node, depth: nat): seq<Node>
    decreases n, 1
  {
    if depth > MAX_DEPTH then [] else EmittedAll(g, n.children, depth)
  }

  function EmittedAll(g: Grammar, nodes: seq<Node>, depth: nat): seq<Node>
    decreases nodes, 0
  {
    if nodes == [] then [] else EmittedAll(g, nodes[..|nodes| - 1], depth) + EmittedAt(g, nodes[|nodes| - 1], depth)
  }

  /** Where a definition's own text ends: at its first nested definition, or at its end. */
  function OwnEnd(g: Grammar, n: Node): nat {
    if MinStart(g, n.children).Some? then MinStart(g, n.children).value else n.endByte
  }

  predicate Spans(g: Grammar, chunks: seq<Chunk>, nodes: seq<Node>) {
    |chunks| == |nodes| && forall i :: 0 <= i < |nodes| ==>
        chunks[i].startByte == nodes[i].startByte && chunks[i].endByte == OwnEnd(g, nodes[i])
        && LinesEnd(g, chunks[i], nodes[i])
  }

  /** The definitions in or under nodes that lie in no other of them. */
  function Nested(g: Grammar, nodes: seq<Node>): seq<Node>
    decreases nodes
  {
    if nodes == [] then []
    else
      var last := nodes[|nodes| - 1];
      Nested(g, nodes[..|nodes| - 1]) + if g.IsDefinition(last) then [last] else Nested(g, last.children)
  }

  /** A chunk ends on its definition's last line, or on the line where a nested definition takes over. */
  predicate LinesEnd(g: Grammar, c: Chunk, n: Node) {
    if MinStart(g, n.children).None? then c.endLine == n.endLine
    else exists d :: d in Nested(g, n.children) && d.startByte == c.endByte && d.startLine == c.endLine
  }

  lemma {:induction false} NestedConcat(g: Grammar, a: seq<Node>, b: seq<Node>)
    ensures Nested(g, a + b) == Nested(g, a) + Nested(g, b)
    decreases |b|
  {
    if b == [] {
      assert a + b == a;
    } else {
      assert (a + b)[..|a + b| - 1] == a + b[..|b| - 1];
      NestedConcat(g, a, b[..|b| - 1]);
    }
  }

  lemma {:induction false} SearchFindsNested(g: Grammar, stack: seq<Node>, best: Option<Node>)
    ensures Search(g, stack, best) == best
            || (Search(g, stack, best).Some? && Search(g, stack, best).value in Nested(g, stack))
    decreases SizeAll(stack)
  {
    if stack != [] {
      var current, rest := stack[|stack| - 1], stack[..|stack| - 1];
      SizePop(stack);
      if g.IsDefinition(current) {
        SearchFindsNested(g, rest, Earlier(best, current));
      } else {
        SizeConcat(rest, current.children);
        SearchFindsNested(g, rest + current.children, best);
        NestedConcat(g, rest, current.children);
      }
    }
  }

  lemma OwnChunkEnds(g: Grammar, n: Node, kind: SymbolKind, qualified: string)
    ensures var c := OwnChunk(g, n, kind, qualified); c.endByte == OwnEnd(g, n) && LinesEnd(g, c, n)
  {
    FirstDefinitionIsLeast(g, n);
    SearchFindsNested(g, n.children, None);
  }

  lemma SpansFront(g: Grammar, c: Chunk, n: Node, chunks: seq<Chunk>, nodes: seq<Node>)
    requires c.startByte == n.startByte && c.endByte == OwnEnd(g, n) && LinesEnd(g, c, n) && Spans(g, chunks, nodes)
    ensures Spans(g, [c] + chunks, [n] + nodes)
  {
  }

  lemma {:induction false} WalkChildSpans(g: Grammar, n: Node, scope: seq<ScopeEntry>, depth: nat, top: bool)
    ensures Spans(g, WalkChild(g, n, scope, depth, top).chunks, EmittedAt(g, n, depth))
    decreases n, 2
  {
    if n.nodeType !in g.importNodes {
      if g.IsDefinition(n) && n.name.Some? {
        WalkSpans(g, n, Entered(g, n, scope), depth + 1, false);
        var kind := DefinitionKind(g, n, scope);
        var own := OwnChunk(g, n, kind, Join(scope + [ScopeEntry(kind, n.name.value)]));
        OwnChunkEnds(g, n, kind, Join(scope + [ScopeEntry(kind, n.name.value)]));
        SpansFront(g, own, n, Walk(g, n, Entered(g, n, scope), depth + 1, false).chunks, EmittedUnder(g, n, depth + 1));
      } else {
        WalkSpans(g, n, scope, depth + 1, top);
      }
    }
  }

  lemma {:induction false} WalkSpans(g: Grammar, n: Node, scope: seq<ScopeEntry>, depth: nat, top: bool)
    ensures Spans(g, Walk(g, n, scope, depth, top).chunks, EmittedUnder(g, n, depth))
    decreases n, 1
  {
    if depth <= MAX_DEPTH { WalkAllSpans(g, n.children, scope, depth, top); }
  }

  lemma {:induction false} WalkAllSpans(g: Grammar, nodes: seq<Node>, scope: seq<ScopeEntry>, depth: nat, top: bool)
    ensures Spans(g, WalkAll(g, nodes, scope, depth, top).chunks, EmittedAll(g, nodes, depth))
    decreases nodes, 0
  {
    if nodes != [] {
      WalkAllSpans(g, nodes[..|nodes| - 1], scope, depth, top);
      WalkChildSpans(g, nodes[|nodes| - 1], scope, depth, top);
    }
  }

  predicate Within(c: Chunk, b: nat) { c.startByte <= b < c.endByte }

  predicate InOwnText(g: Grammar, n: Node, b: nat) { n.startByte <= b < OwnEnd(g, n) }

  /** The first emitted definition, or the end of a source without any. */
  function PreambleOf(g: Grammar, root: Node, sourceLength: nat): nat {
    var emitted := EmittedUnder(g, root, 0);
    if emitted == [] then sourceLength else emitted[0].startByte
  }

  lemma SpansCover(g: Grammar, chunks: seq<Chunk>, nodes: seq<Node>, b: nat)
    requires Spans(g, chunks, nodes)
    ensures (exists c :: c in chunks && Within(c, b)) <==> exists n :: n in nodes && InOwnText(g, n, b)
  {
    if c :| c in chunks && Within(c, b) {
      var i :| 0 <= i < |chunks| && chunks[i] == c;
      assert nodes[i] in nodes && InOwnText(g, nodes[i], b);
    }
    if n :| n in nodes && InOwnText(g, n, b) {
      var i :| 0 <= i < |nodes| && nodes[i] == n;
      assert chunks[i] in chunks && Within(chunks[i], b);
    }
  }

  /**
   * A byte is in a chunk exactly when it comes before the first emitted definition, or in the text of an
   * emitted definition before the first definition nested in it. Text after a nested definition, and
   * module-level text after the first definition, is in none.
   */
  lemma CoveredIff(g: Grammar, root: Node, sourceLength: nat, b: nat)
    requires WellNested(root) && root.endByte <= sourceLength
    ensures (exists c :: c in Extract(g, root, sourceLength).chunks && Within(c, b)) <==>
            b < PreambleOf(g, root, sourceLength) || exists n :: n in EmittedUnder(g, root, 0) && InOwnText(g, n, b)
  {
    var walked, chunks := Walk(g, root, [], 0, true).chunks, Extract(g, root, sourceLength).chunks;
    ChunksAreApart(g, root, sourceLength);
    WalkSpans(g, root, [], 0, true);
    SpansCover(g, walked, EmittedUnder(g, root, 0), b);
    assert PreambleEnd(walked, sourceLength) == PreambleOf(g, root, sourceLength);
    if PreambleEnd(walked, sourceLength) != 0 { FrontCovers(chunks, b); }
  }

  /** A byte is in some chunk exactly when it is in the first or in one of the others. */
  lemma FrontCovers(chunks: seq<Chunk>, b: nat)
    requires chunks != []
    ensures (exists c :: c in chunks && Within(c, b)) <==>
            Within(chunks[0], b) || exists c :: c in chunks[1..] && Within(c, b)
  {
    assert chunks == [chunks[0]] + chunks[1..];
  }

  /** The first named top-level definition is the first one emitted. */
  predicate FirstTop(o: Out, emitted: seq<Node>) {
    (o.tops == [] <==> emitted == []) && (emitted != [] ==> o.tops[0] == emitted[0])
  }

  lemma {:induction false} WalkChildFirst(g: Grammar, n: Node, scope: seq<ScopeEntry>, depth: nat)
    ensures FirstTop(WalkChild(g, n, scope, depth, true), EmittedAt(g, n, depth))
    decreases n, 2
  {
    if n.nodeType !in g.importNodes && !(g.IsDefinition(n) && n.name.Some?) { WalkFirst(g, n, scope, depth + 1); }
  }

  lemma {:induction false} WalkFirst(g: Grammar, n: Node, scope: seq<ScopeEntry>, depth: nat)
    ensures FirstTop(Walk(g, n, scope, depth, true), EmittedUnder(g, n, depth))
    decreases n, 1
  {
    if depth <= MAX_DEPTH { WalkAllFirst(g, n.children, scope, depth); }
  }

  lemma {:induction false} WalkAllFirst(g: Grammar, nodes: seq<Node>, scope: seq<ScopeEntry>, depth: nat)
    ensures FirstTop(WalkAll(g, nodes, scope, depth, true), EmittedAll(g, nodes, depth))
    decreases nodes, 0
  {
    if nodes != [] {
      WalkAllFirst(g, nodes[..|nodes| - 1], scope, depth);
      WalkChildFirst(g, nodes[|nodes| - 1], scope, depth);
    }
  }

  lemma ModuleLines(root: Node, o: Out, sourceLength: nat, emitted: seq<Node>)
    requires TopsOk(o, true) && forall c :: c in o.chunks ==> o.chunks[0].startByte <= c.startByte
    requires FirstTop(o, emitted)
    ensures var m := ModuleChunk(root, o.tops, sourceLength);
            var line := if emitted == [] then root.endLine else emitted[0].startLine;
            m != [] ==> m[0] == Chunk(MODULE_SCOPE, ImportKind, 1, Max(1, line), 0, m[0].endByte, false)
  {
    if o.tops != [] {
      forall n | n in o.tops
        ensures o.tops[0].startByte <= n.startByte
      {
        var c :| c in o.chunks && c.startByte == n.startByte;
      }
      EarliestIsFirst(o.tops);
    }
  }

  /**
   * The chunks of a well-nested tree are, in order, one for each emitted definition, from its start to where its
   * first nested definition takes over, or to its end, lines included; before them, unless it would be empty, the
   * module's own from the first line to the first emitted definition.
   */
  lemma ChunksSpan(g: Grammar, root: Node, sourceLength: nat)
    requires WellNested(root) && root.endByte <= sourceLength
    ensures var chunks, emitted := Extract(g, root, sourceLength).chunks, EmittedUnder(g, root, 0);
            var end := PreambleOf(g, root, sourceLength);
            var line := if emitted == [] then root.endLine else emitted[0].startLine;
            if end == 0 then Spans(g, chunks, emitted)
            else chunks != [] && Spans(g, chunks[1..], emitted)
                 && chunks[0] == Chunk(MODULE_SCOPE, ImportKind, 1, Max(1, line), 0, end, false)
  {
    var o, emitted := Walk(g, root, [], 0, true), EmittedUnder(g, root, 0);
    var end := PreambleEnd(o.chunks, sourceLength);
    WalkSpans(g, root, [], 0, true);
    assert end == PreambleOf(g, root, sourceLength);
    ChunksAreApart(g, root, sourceLength);
    if end != 0 { ModuleFirst(g, root, sourceLength); }
  }

  lemma ModuleFirst(g: Grammar, root: Node, sourceLength: nat)
    requires WellNested(root) && root.endByte <= sourceLength
    requires PreambleEnd(Walk(g, root, [], 0, true).chunks, sourceLength) != 0
    ensures var emitted, chunks := EmittedUnder(g, root, 0), Extract(g, root, sourceLength).chunks;
            var line := if emitted == [] then root.endLine else emitted[0].startLine;
            chunks != [] && chunks[0] == Chunk(MODULE_SCOPE, ImportKind, 1, Max(1, line), 0, chunks[0].endByte, false)
  {
    var o := Walk(g, root, [], 0, true);
    WalkTidy(g, root, [], 0, true, false);
    WalkTops(g, root, [], 0, true);
    WalkFirst(g, root, [], 0);
    TidyIsApart(o.chunks, root.startByte, root.endByte, MinStart(g, root.children), sourceLength, false);
    PreambleEndsAtFirstChunk(root, o, sourceLength);
    ModuleLines(root, o, sourceLength, EmittedUnder(g, root, 0));
    var m := ModuleChunk(root, o.tops, sourceLength)[0];
    if o.chunks != [] { assert o.chunks[0] in o.chunks; }
    SortMovesToFront(o.chunks, m);
    assert ModuleChunk(root, o.tops, sourceLength) == [m];
  }

  // ---------------------------------------------------------------- chunks and symbols

  /** The symbols that are definitions. */
  function Definitions(symbols: seq<Symbol>): seq<Symbol> {
    if symbols == [] then []
    else
      var last := symbols[|symbols| - 1];
      Definitions(symbols[..|symbols| - 1]) + if last.kind.ImportKind? then [] else [last]
  }

  lemma {:induction false} DefinitionsConcat(a: seq<Symbol>, b: seq<Symbol>)
    ensures Definitions(a + b) == Definitions(a) + Definitions(b)
    decreases |b|
  {
    if b == [] {
      assert a + b == a;
    } else {
      assert (a + b)[..|a + b| - 1] == a + b[..|b| - 1];
      DefinitionsConcat(a, b[..|b| - 1]);
    }
  }

  predicate ChunkOf(c: Chunk, s: Symbol) {
    && c.headerPath == s.qualifiedName && c.kind == s.kind && c.startLine == s.startLine
    && c.startByte == s.startByte && c.endByte <= s.endByte
  }

  /** One chunk per definition, in the same order, inside its span. */
  predicate Paired(o: Out) {
    var definitions := Definitions(o.symbols);
    |definitions| == |o.chunks| && forall i :: 0 <= i < |o.chunks| ==> ChunkOf(o.chunks[i], definitions[i])
  }

  predicate GrammarOk(g: Grammar) {
    forall t :: t in g.definitions ==> !g.definitions[t].ImportKind?
  }

  /** No node is refined into an import. */
  predicate RefinedOk(n: Node)
    decreases n, 1
  {
    n.refined != Some(ImportKind) && AllRefinedOk(n.children)
  }

  predicate AllRefinedOk(nodes: seq<Node>)
    decreases nodes, 0
  {
    nodes != [] ==> AllRefinedOk(nodes[..|nodes| - 1]) && RefinedOk(nodes[|nodes| - 1])
  }

  lemma PairedAppend(a: Out, b: Out)
    requires Paired(a) && Paired(b)
    ensures Paired(Append(a, b))
  {
    DefinitionsConcat(a.symbols, b.symbols);
  }

  lemma DefinitionPaired(g: Grammar, n: Node, scope: seq<ScopeEntry>, top: bool)
    requires GrammarOk(g) && RefinedOk(n) && WellNested(n) && g.IsDefinition(n) && n.name.Some?
    ensures Paired(DefinitionOut(g, n, scope, top))
  {
    FirstDefinitionIsLeast(g, n);
    MinStartInside(g, n.children, n.startByte, n.endByte);
    var symbols := DefinitionOut(g, n, scope, top).symbols;
    assert symbols[..0] == [];
    assert Definitions(symbols) == symbols;
  }

  lemma {:induction false} WalkChildPaired(g: Grammar, n: Node, scope: seq<ScopeEntry>, depth: nat, top: bool)
    requires GrammarOk(g) && RefinedOk(n) && WellNested(n)
    ensures Paired(WalkChild(g, n, scope, depth, top))
    decreases n, 2
  {
    if n.nodeType in g.importNodes {
      assert ImportOut(n).symbols[..0] == [];
    } else if g.IsDefinition(n) {
      if n.name.None? {
        WalkPaired(g, n, scope, depth + 1, top);
      } else {
        DefinitionPaired(g, n, scope, top);
        WalkPaired(g, n, Entered(g, n, scope), depth + 1, false);
        PairedAppend(DefinitionOut(g, n, scope, top), Walk(g, n, Entered(g, n, scope), depth + 1, false));
      }
    } else {
      WalkPaired(g, n, scope, depth + 1, top);
      PairedAppend(if n.nodeType in g.callNodes then CallOut(n, scope) else NOTHING, Walk(g, n, scope, depth + 1, top));
    }
  }

  lemma {:induction false} WalkPaired(g: Grammar, n: Node, scope: seq<ScopeEntry>, depth: nat, top: bool)
    requires GrammarOk(g) && AllRefinedOk(n.children) && AllNested(n.children, n.startByte, n.endByte)
    ensures Paired(Walk(g, n, scope, depth, top))
    decreases n, 1
  {
    if depth <= MAX_DEPTH { WalkAllPaired(g, n.children, n.startByte, n.endByte, scope, depth, top); }
  }

  lemma {:induction false} WalkAllPaired(g: Grammar, nodes: seq<Node>, lo: nat, hi: nat, scope: seq<ScopeEntry>,
                                         depth: nat, top: bool)
    requires GrammarOk(g) && AllRefinedOk(nodes) && AllNested(nodes, lo, hi)
    ensures Paired(WalkAll(g, nodes, scope, depth, top))
    decreases nodes, 0
  {
    if nodes != [] {
      var init, last := nodes[..|nodes| - 1], nodes[|nodes| - 1];
      WalkAllPaired(g, init, lo, last.startByte, scope, depth, top);
      WalkChildPaired(g, last, scope, depth, top);
      PairedAppend(WalkAll(g, init, scope, depth, top), WalkChild(g, last, scope, depth, top));
    }
  }

  /** The walk of any well-nested tree emits one chunk per definition symbol, inside that symbol's span. */
  lemma ChunksMatchSymbols(g: Grammar, root: Node)
    requires GrammarOk(g) && RefinedOk(root) && WellNested(root)
    ensures Paired(Walk(g, root, [], 0, true))
  {
    WalkPaired(g, root, [], 0, true);
  }

  // ---------------------------------------------------------------- references and scopes

  /** Every reference comes from the module, from a definition around the walk, or from one inside it. */
  predicate ScopedIn(o: Out, outer: string) {
    forall r :: r in o.references ==>
                  r.fromQualifiedName == MODULE_SCOPE || r.fromQualifiedName == outer
                      || Defines(o.symbols, r.fromQualifiedName)
  }

  predicate Defines(symbols: seq<Symbol>, name: string) {
    exists s :: s in symbols && !s.kind.ImportKind? && s.qualifiedName == name
  }

  lemma ScopedAppend(a: Out, b: Out, outer: string, inner: string)
    requires ScopedIn(a, outer) && ScopedIn(b, inner)
    requires inner == outer || inner == MODULE_SCOPE || Defines(a.symbols, inner)
    ensures ScopedIn(Append(a, b), outer)
  {
    var o := Append(a, b);
    forall name | Defines(a.symbols, name) || Defines(b.symbols, name)
      ensures Defines(o.symbols, name)
    {
      if Defines(a.symbols, name) {
        var s :| s in a.symbols && !s.kind.ImportKind? && s.qualifiedName == name;
        assert s in o.symbols;
      } else {
        var s :| s in b.symbols && !s.kind.ImportKind? && s.qualifiedName == name;
        assert s in o.symbols;
      }
    }
  }

  /** A definition's own references come from the definition itself, which also is the scope of what is inside. */
  lemma DefinitionScoped(g: Grammar, n: Node, scope: seq<ScopeEntry>, top: bool)
    requires GrammarOk(g) && n.refined != Some(ImportKind) && g.IsDefinition(n) && n.name.Some?
    ensures ScopedIn(DefinitionOut(g, n, scope, top), CurrentScope(scope))
    ensures var inner := CurrentScope(Entered(g, n, scope));
            inner == MODULE_SCOPE || Defines(DefinitionOut(g, n, scope, top).symbols, inner)
  {
    var own := DefinitionOut(g, n, scope, top);
    assert own.symbols[0] in own.symbols;
    assert Defines(own.symbols, own.symbols[0].qualifiedName);
  }

  lemma {:induction false} WalkChildScoped(g: Grammar, n: Node, scope: seq<ScopeEntry>, depth: nat, top: bool)
    requires GrammarOk(g) && RefinedOk(n)
    ensures ScopedIn(WalkChild(g, n, scope, depth, top), CurrentScope(scope))
    decreases n, 2
  {
    if n.nodeType !in g.importNodes {
      if g.IsDefinition(n) {
        if n.name.None? {
          WalkScoped(g, n, scope, depth + 1, top);
        } else {
          DefinitionScoped(g, n, scope, top);
          WalkScoped(g, n, Entered(g, n, scope), depth + 1, false);
          ScopedAppend(DefinitionOut(g, n, scope, top), Walk(g, n, Entered(g, n, scope), depth + 1, false),
                       CurrentScope(scope), CurrentScope(Entered(g, n, scope)));
        }
      } else {
        WalkScoped(g, n, scope, depth + 1, top);
        ScopedAppend(if n.nodeType in g.callNodes then CallOut(n, scope) else NOTHING,
                     Walk(g, n, scope, depth + 1, top),
                     CurrentScope(scope), CurrentScope(scope));
      }
    }
  }

  lemma {:induction false} WalkScoped(g: Grammar, n: Node, scope: seq<ScopeEntry>, depth: nat, top: bool)
    requires GrammarOk(g) && AllRefinedOk(n.children)
    ensures ScopedIn(Walk(g, n, scope, depth, top), CurrentScope(scope))
    decreases n, 1
  {
    if depth <= MAX_DEPTH { WalkAllScoped(g, n.children, scope, depth, top); }
  }

  lemma {:induction false} WalkAllScoped(g: Grammar, nodes: seq<Node>, scope: seq<ScopeEntry>, depth: nat, top: bool)
    requires GrammarOk(g) && AllRefinedOk(nodes)
    ensures ScopedIn(WalkAll(g, nodes, scope, depth, top), CurrentScope(scope))
    decreases nodes, 0
  {
    if nodes != [] {
      WalkAllScoped(g, nodes[..|nodes| - 1], scope, depth, top);
      WalkChildScoped(g, nodes[|nodes| - 1], scope, depth, top);
      ScopedAppend(WalkAll(g, nodes[..|nodes| - 1], scope, depth, top),
                   WalkChild(g, nodes[|nodes| - 1], scope, depth, top),
                   CurrentScope(scope), CurrentScope(scope));
    }
  }

  /** Every parsed reference comes from the module or from a definition of the same file. */
  lemma ReferencesHaveScopes(g: Grammar, root: Node, sourceLength: nat)
    requires GrammarOk(g) && RefinedOk(root)
    ensures var parsed := Extract(g, root, sourceLength);
            forall r :: r in parsed.references ==>
                          r.fromQualifiedName == MODULE_SCOPE || Defines(parsed.symbols, r.fromQualifiedName)
  {
    WalkScoped(g, root, [], 0, true);
  }

  // ---------------------------------------------------------------- the extractor

  class Extractor {
    const g: Grammar
    const sourceLength: nat
    var symbols: seq<Symbol>
    var chunks: seq<Chunk>
    var references: seq<Reference>
    ghost var tops: seq<Node>
    var firstTop: Option<Node>

    ghost function Emitted(): Out
      reads this
    {
      Out(symbols, chunks, references, tops)
    }

    ghost predicate Valid()
      reads this
    {
      firstTop == EarliestTop(tops)
    }

    constructor (g: Grammar, sourceLength: nat)
      ensures Valid() && Emitted() == NOTHING && this.g == g && this.sourceLength == sourceLength
    {
      this.g, this.sourceLength := g, sourceLength;
      symbols, chunks, references, tops, firstTop := [], [], [], [], None;
    }

    /** Remember the earliest top-level definition. */
    method NoteTop(n: Node, top: bool)
      requires Valid()
      modifies this`firstTop, this`tops
      ensures Valid() && tops == old(tops) + if top then [n] else []
    {
      if top {
        assert (tops + [n])[..|tops|] == tops;
        if firstTop.None? || n.startByte < firstTop.value.startByte { firstTop := Some(n); }
        tops := tops + [n];
      }
    }

    /** From a definition's start to its first nested definition, or to its end. */
    method ChunkOfDefinition(n: Node, kind: SymbolKind, qualified: string) returns (chunk: Chunk)
      requires g.IsDefinition(n)
      ensures chunk == OwnChunk(g, n, kind, qualified)
    {
      var nested := FirstDefinitionChild(g, n);
      var end := if nested.Some? then nested.value.startByte else n.endByte;
      var endLine := if nested.Some? then nested.value.startLine else n.endLine;
      chunk := Chunk(qualified, kind, n.startLine, endLine, n.startByte, end, false);
    }

    /** A named definition's own symbol, base references and chunk. */
    method EmitOwn(n: Node, scope: seq<ScopeEntry>, top: bool)
      requires Valid() && g.IsDefinition(n) && n.name.Some?
      modifies this
      ensures Valid()
      ensures Emitted() == Append(old(Emitted()), DefinitionOut(g, n, scope, top))
    {
      ghost var own := DefinitionOut(g, n, scope, top);
      var kind := DefinitionKind(g, n, scope);
      var qualified := Join(scope + [ScopeEntry(kind, n.name.value)]);
      symbols := symbols + [Symbol(kind, n.name.value, qualified, n.startLine, n.endLine, n.startByte, n.endByte)];
      assert symbols == old(symbols) + own.symbols;
      if IsType(kind) {
        references := references + ReferencesTo(Inherits, qualified, Bases(n, LastComponent(qualified)), n.startLine);
      }
      assert references == old(references) + own.references;
      NoteTop(n, top);
      assert tops == old(tops) + own.tops;
      var chunk := ChunkOfDefinition(n, kind, qualified);
      assert own.chunks == [chunk];
      chunks := chunks + [chunk];
    }

    method EmitDefinition(n: Node, scope: seq<ScopeEntry>, depth: nat, top: bool)
      requires Valid() && g.IsDefinition(n)
      modifies this
      ensures Valid()
      ensures Emitted() == Append(old(Emitted()),
                                  if n.name.None? then Walk(g, n, scope, depth + 1, top)
                                  else Append(DefinitionOut(g, n, scope, top),
                                              Walk(g, n, Entered(g, n, scope), depth + 1, false)))
      decreases n, 2
    {
      if n.name.None? {
        WalkNode(n, scope, depth + 1, top);
        return;
      }
      ghost var before := Emitted();
      EmitOwn(n, scope, top);
      WalkNode(n, Entered(g, n, scope), depth + 1, false);
      AppendAssociates(before, DefinitionOut(g, n, scope, top), Walk(g, n, Entered(g, n, scope), depth + 1, false));
    }

    method WalkNode(n: Node, scope: seq<ScopeEntry>, depth: nat, top: bool)
      requires Valid()
      modifies this
      ensures Valid()
      ensures Emitted() == Append(old(Emitted()), Walk(g, n, scope, depth, top))
      decreases n, 1
    {
      if depth > MAX_DEPTH { return; }
      ghost var before := Emitted();
      for i := 0 to |n.children|
        invariant Valid()
        invariant Emitted() == Append(before, WalkAll(g, n.children[..i], scope, depth, top))
      {
        WalkAllNext(g, before, n.children, i, scope, depth, top);
        WalkOne(n.children[i], scope, depth, top);
      }
      assert n.children[..|n.children|] == n.children;
    }

    method WalkOne(child: Node, scope: seq<ScopeEntry>, depth: nat, top: bool)
      requires Valid()
      modifies this
      ensures Valid()
      ensures Emitted() == Append(old(Emitted()), WalkChild(g, child, scope, depth, top))
      decreases child, 3
    {
      if child.nodeType in g.importNodes {
        var o := ImportOut(child);
        symbols, references := symbols + o.symbols, references + o.references;
      } else if g.IsDefinition(child) {
        EmitDefinition(child, scope, depth, top);
      } else {
        ghost var before := Emitted();
        var o := if child.nodeType in g.callNodes then CallOut(child, scope) else NOTHING;
        references := references + o.references;
        assert Emitted() == Append(before, o);
        WalkNode(child, scope, depth + 1, top);
        AppendAssociates(before, o, Walk(g, child, scope, depth + 1, top));
      }
    }

    method Run(root: Node) returns (parsed: Parsed)
      requires Valid() && Emitted() == NOTHING
      modifies this
      ensures parsed == Extract(g, root, sourceLength)
      ensures parsed == Parsed(symbols, chunks, references)
    {
      WalkNode(root, [], 0, true);
      assert Emitted() == Walk(g, root, [], 0, true);
      var end := if firstTop.Some? then firstTop.value.startByte else sourceLength;
      var endLine := if firstTop.Some? then firstTop.value.startLine else root.endLine;
      var preamble: seq<Chunk> := [];
      if end > 0 { preamble := [Chunk(MODULE_SCOPE, ImportKind, 1, Max(1, endLine), 0, end, false)]; }
      chunks := SortByStart(chunks + preamble);
      parsed := Parsed(symbols, chunks, references);
    }
  }

  lemma WalkAllNext(g: Grammar, before: Out, nodes: seq<Node>, i: nat, scope: seq<ScopeEntry>, depth: nat, top: bool)
    requires i < |nodes|
    ensures Append(before, WalkAll(g, nodes[..i + 1], scope, depth, top)) ==
            Append(Append(before, WalkAll(g, nodes[..i], scope, depth, top)), WalkChild(g, nodes[i], scope, depth, top))
  {
    assert nodes[..i + 1][..i] == nodes[..i];
    AppendAssociates(before, WalkAll(g, nodes[..i], scope, depth, top), WalkChild(g, nodes[i], scope, depth, top));
  }

  lemma AppendAssociates(a: Out, b: Out, c: Out)
    ensures Append(Append(a, b), c) == Append(a, Append(b, c))
  {
    assert a.symbols + b.symbols + c.symbols == a.symbols + (b.symbols + c.symbols);
    assert a.chunks + b.chunks + c.chunks == a.chunks + (b.chunks + c.chunks);
    assert a.references + b.references + c.references == a.references + (b.references + c.references);
    assert a.tops + b.tops + c.tops == a.tops + (b.tops + c.tops);
  }
}
