/**
 * What the knowledge graph of given symbols and references holds, told by the symbols and references
 * (codeintel/application/graph_builder.py).
 */
module GraphLaws {
  import opened Common
  import opened CodeModel
  import opened Firsts
  import opened GraphBuilder

  // ---------------------------------------------------------------- nodes

  /** The name of a module: the last component of its path, up to the last dot in it. */
  predicate IsStem(path: string, stem: string) {
    exists i, j :: 0 <= i <= j <= |path| && StemAt(path, i, j) && stem == path[i..j]
  }

  predicate StemAt(path: string, i: nat, j: nat)
    requires i <= j <= |path|
  {
    && '/' !in path[i..] && (i > 0 ==> path[i - 1] == '/')
    && if j == |path| then '.' !in path[i..] else path[j] == '.' && '.' !in path[j + 1..]
  }

  lemma {:induction false} AfterLastLaws(s: string, c: char)
    ensures var r := AfterLast(s, c);
            && |r| <= |s| && r == s[|s| - |r|..] && c !in r && (|r| < |s| ==> s[|s| - |r| - 1] == c)
    decreases |s|
  {
    if s != "" && s[|s| - 1] != c {
      var init := s[..|s| - 1];
      AfterLastLaws(init, c);
      assert s[|s| - |AfterLast(s, c)|..] == init[|init| - |AfterLast(init, c)|..] + [s[|s| - 1]];
    }
  }

  lemma {:induction false} BeforeLastLaws(s: string, c: char)
    ensures var r := BeforeLast(s, c);
            if c !in s then r == s else |r| < |s| && r == s[..|r|] && s[|r|] == c && c !in s[|r| + 1..]
    decreases |s|
  {
    if c in s && s[|s| - 1] != c {
      var init, last := s[..|s| - 1], s[|s| - 1];
      assert s == init + [last] && c in init;
      BeforeLastLaws(init, c);
      var r := BeforeLast(init, c);
      assert s[|r| + 1..] == init[|r| + 1..] + [last];
    }
  }

  lemma ModuleNameIsStem(path: string)
    ensures IsStem(path, ModuleName(path))
  {
    AfterLastLaws(path, '/');
    var file := AfterLast(path, '/');
    BeforeLastLaws(file, '.');
    var i, stem := |path| - |file|, BeforeLast(file, '.');
    var j := i + |stem|;
    assert path[i..] == file;
    if '.' in file {
      assert path[j] == file[|stem|] && path[j + 1..] == file[|stem| + 1..];
    }
    assert StemAt(path, i, j);
    assert path[i..j] == stem;
  }

  /** The node of a file: named by its stem, of kind module, on its first line. */
  predicate IsModule(n: GraphNode, path: string) {
    n.path == path && n.qualifiedName == "<module>" && IsStem(path, n.name) && n.kind == ModuleKind && n.startLine == 1
  }

  /** The node of a definition. */
  predicate IsDefinition(n: GraphNode, s: In<Symbol>) {
    && s.item.kind != ImportKind
    && n == GraphNode(s.path, s.item.qualifiedName, s.item.name, s.item.kind, s.item.startLine)
  }

  /** No definition before the i-th symbol has its path and name. */
  predicate FirstOfItsName(symbols: seq<In<Symbol>>, i: nat)
    requires i < |symbols|
  {
    forall j :: 0 <= j < i && symbols[j].item.kind != ImportKind && symbols[j].path == symbols[i].path ==>
                  symbols[j].item.qualifiedName != symbols[i].item.qualifiedName
  }

  /** A node that is not a module's is the first definition of its path and name. */
  predicate FromDefinition(symbols: seq<In<Symbol>>, n: GraphNode) {
    exists i :: 0 <= i < |symbols| && IsDefinition(n, symbols[i]) && FirstOfItsName(symbols, i)
  }

  lemma {:induction false} FirstNode(symbols: seq<In<Symbol>>, i: nat)
    requires i < |SymbolNodes(symbols)| && NoneBefore(SymbolNodes(symbols), i, NodeKey)
    ensures FromDefinition(symbols, SymbolNodes(symbols)[i])
    decreases |symbols|
  {
    var init, last := symbols[..|symbols| - 1], symbols[|symbols| - 1];
    var before, n := SymbolNodes(init), SymbolNodes(symbols)[i];
    assert symbols == init + [last];
    if i < |before| {
      assert forall j :: 0 <= j <= i ==> SymbolNodes(symbols)[j] == before[j];
      FirstNode(init, i);
      var k :| 0 <= k < |init| && IsDefinition(n, init[k]) && FirstOfItsName(init, k);
      assert FirstOfItsName(symbols, k);
    } else {
      SymbolNodesExact(init);
      forall j | 0 <= j < |init| && init[j].item.kind != ImportKind && init[j].path == last.path
        ensures init[j].item.qualifiedName != last.item.qualifiedName
      {
        assert init[j] in init && SymbolNode(init[j]) in before;
        var k :| 0 <= k < |before| && before[k] == SymbolNode(init[j]);
        assert NodeKey(SymbolNodes(symbols)[k]) != NodeKey(n);
      }
      assert FirstOfItsName(symbols, |symbols| - 1) && IsDefinition(n, symbols[|symbols| - 1]);
    }
  }

  /** Every node is some file's module, or the first definition of its path and name. */
  lemma NodesAre(symbols: seq<In<Symbol>>, references: seq<In<Reference>>, n: GraphNode)
    requires n in BuildGraph(symbols, references).nodes
    ensures (exists s :: s in symbols && IsModule(n, s.path)) || FromDefinition(symbols, n)
  {
    var modules, definitions := ModuleNodes(symbols), SymbolNodes(symbols);
    var all := modules + definitions;
    DistinctIffFirst(all, n, NodeKey);
    var i :| 0 <= i < |all| && all[i] == n && NoneBefore(all, i, NodeKey);
    if i < |modules| {
      ModuleNameIsStem(symbols[i].path);
      assert symbols[i] in symbols && IsModule(n, symbols[i].path);
    } else {
      var k := i - |modules|;
      forall j | 0 <= j < k
        ensures NodeKey(definitions[j]) != NodeKey(definitions[k])
      {
        assert all[|modules| + j] == definitions[j];
      }
      FirstNode(symbols, k);
    }
  }

  // ---------------------------------------------------------------- targets

  /** What a reference may resolve to: calls neither types without constructors nor modules, bases only types. */
  predicate MayTarget(kind: EdgeKind, target: SymbolKind) {
    match kind
    case Calls => target !in {InterfaceKind, EnumKind, TraitKind, ImportKind, ModuleKind}
    case Inherits => target !in {FunctionKind, MethodKind, ImportKind, ModuleKind}
    case Imports => true
    case Defines => false
  }

  predicate Suits(n: GraphNode, ref: Reference) { n.name == ref.targetName && MayTarget(ref.kind, n.kind) }

  /** A node a reference may be linked to: in its own file, if any there suits, and not the scope itself. */
  predicate Eligible(path: string, ref: Reference, nodes: seq<GraphNode>, n: GraphNode) {
    && Suits(n, ref)
    && !(n.path == path && n.qualifiedName == ref.fromQualifiedName)
    && (n.path == path || forall m :: m in nodes && m.path == path ==> !Suits(m, ref))
  }

  function IsEligible(path: string, ref: Reference, nodes: seq<GraphNode>): GraphNode -> bool {
    (n: GraphNode) => Eligible(path, ref, nodes, n)
  }

  function EligibleIn(nodes: seq<GraphNode>, path: string, ref: Reference, all: seq<GraphNode>): nat {
    |Filter(nodes, IsEligible(path, ref, all))|
  }

  lemma FitsIffSuits(n: GraphNode, ref: Reference)
    ensures Fits(n, ref) <==> Suits(n, ref)
  {
    match n.kind {
      case ClassKind => case FunctionKind => case MethodKind => case InterfaceKind => case StructKind =>
      case EnumKind => case TraitKind => case ImportKind => case ModuleKind =>
    }
  }

  lemma {:induction false} FilterSame(xs: seq<GraphNode>, f: GraphNode -> bool, g: GraphNode -> bool)
    requires forall x :: x in xs ==> f(x) == g(x)
    ensures Filter(xs, f) == Filter(xs, g)
    decreases |xs|
  {
    if xs != [] {
      assert xs == xs[..|xs| - 1] + [xs[|xs| - 1]];
      FilterSame(xs[..|xs| - 1], f, g);
    }
  }

  lemma LinkedIsEligible(path: string, ref: Reference, nodes: seq<GraphNode>)
    ensures Linked(path, ref, nodes) == Filter(nodes, IsEligible(path, ref, nodes))
  {
    var local := Filter(Candidates(ref, nodes), InFile(path));
    if local != [] {
      LocalShadows(path, ref, nodes, local);
      LocalTargets(path, ref, nodes);
    } else {
      NoneShadows(path, ref, nodes);
      AllTargets(path, ref, nodes);
    }
  }

  lemma LocalTargets(path: string, ref: Reference, nodes: seq<GraphNode>)
    requires exists m :: m in nodes && m.path == path && Suits(m, ref)
    ensures Filter(Filter(Candidates(ref, nodes), InFile(path)), OtherThan(path, ref.fromQualifiedName)) ==
            Filter(nodes, IsEligible(path, ref, nodes))
  {
    var other := OtherThan(path, ref.fromQualifiedName);
    var fitsHere := (n: GraphNode) => Fits(n, ref) && n.path == path;
    var all := (n: GraphNode) => fitsHere(n) && other(n);
    FilterTwice(nodes, Fitting(ref), InFile(path), fitsHere);
    FilterTwice(nodes, fitsHere, other, all);
    forall n | n in nodes
      ensures all(n) == IsEligible(path, ref, nodes)(n)
    {
      FitsIffSuits(n, ref);
    }
    FilterSame(nodes, all, IsEligible(path, ref, nodes));
  }

  lemma AllTargets(path: string, ref: Reference, nodes: seq<GraphNode>)
    requires forall m :: m in nodes && m.path == path ==> !Suits(m, ref)
    ensures Filter(Candidates(ref, nodes), OtherThan(path, ref.fromQualifiedName)) ==
            Filter(nodes, IsEligible(path, ref, nodes))
  {
    var other := OtherThan(path, ref.fromQualifiedName);
    var all := (n: GraphNode) => Fits(n, ref) && other(n);
    FilterTwice(nodes, Fitting(ref), other, all);
    forall n | n in nodes
      ensures all(n) == IsEligible(path, ref, nodes)(n)
    {
      FitsIffSuits(n, ref);
    }
    FilterSame(nodes, all, IsEligible(path, ref, nodes));
  }

  lemma NoneShadows(path: string, ref: Reference, nodes: seq<GraphNode>)
    requires Filter(Candidates(ref, nodes), InFile(path)) == []
    ensures forall m :: m in nodes && m.path == path ==> !Suits(m, ref)
  {
    forall m | m in nodes && m.path == path
      ensures !Suits(m, ref)
    {
      FitsIffSuits(m, ref);
      assert m !in Filter(Candidates(ref, nodes), InFile(path));
    }
  }

  lemma LocalShadows(path: string, ref: Reference, nodes: seq<GraphNode>, local: seq<GraphNode>)
    requires local == Filter(Candidates(ref, nodes), InFile(path)) && local != []
    ensures exists m :: m in nodes && m.path == path && Suits(m, ref)
  {
    assert local[0] in local;
    FitsIffSuits(local[0], ref);
  }

  /** A reference resolves to exactly the eligible nodes with fewer than eight eligible ones before them. */
  lemma TargetsAre(path: string, ref: Reference, nodes: seq<GraphNode>, n: GraphNode)
    ensures n in ResolveTargets(path, ref, nodes) <==>
            && Eligible(path, ref, nodes, n)
            && exists i :: 0 <= i < |nodes| && nodes[i] == n && EligibleIn(nodes[..i], path, ref, nodes) < 8
  {
    var eligible := IsEligible(path, ref, nodes);
    LinkedIsEligible(path, ref, nodes);
    TakeOfFilter(nodes, eligible, MAX_TARGETS, n);
    if Picked(nodes, eligible, MAX_TARGETS, n) {
      var i :| 0 <= i < |nodes| && Among(nodes, eligible, MAX_TARGETS, n, i);
      assert nodes[i] == n && EligibleIn(nodes[..i], path, ref, nodes) < 8;
    }
    if Eligible(path, ref, nodes, n)
       && exists i :: 0 <= i < |nodes| && nodes[i] == n && EligibleIn(nodes[..i], path, ref, nodes) < 8 {
      var i :| 0 <= i < |nodes| && nodes[i] == n && EligibleIn(nodes[..i], path, ref, nodes) < 8;
      assert Among(nodes, eligible, MAX_TARGETS, n, i);
    }
  }

  // ---------------------------------------------------------------- edges

  /** A module defines each definition of its file, on the definition's first line. */
  predicate IsDefines(e: GraphEdge, s: In<Symbol>) {
    && s.item.kind != ImportKind
    && e == GraphEdge(s.path, "<module>", s.path, s.item.qualifiedName, Defines, Some(s.item.startLine))
  }

  /** A reference links its scope to what it resolves to, on its own line. */
  predicate IsLink(e: GraphEdge, r: In<Reference>, nodes: seq<GraphNode>) {
    && (exists m :: m in nodes && m.path == r.path && m.qualifiedName == r.item.fromQualifiedName)
    && exists n :: n in ResolveTargets(r.path, r.item, nodes) && Joins(e, r, n)
  }

  predicate Joins(e: GraphEdge, r: In<Reference>, n: GraphNode) {
    e == GraphEdge(r.path, r.item.fromQualifiedName, n.path, n.qualifiedName, r.item.kind, Some(r.item.line))
  }

  lemma LinksOf(r: In<Reference>, nodes: seq<GraphNode>, e: GraphEdge)
    ensures e in EdgesOfRef(r, nodes) <==> IsLink(e, r, nodes)
  {
    var key := (r.path, r.item.fromQualifiedName);
    if key in KeysOf(nodes, NodeKey) {
      var m :| m in nodes && NodeKey(m) == key;
      assert m.path == r.path && m.qualifiedName == r.item.fromQualifiedName;
      var targets := ResolveTargets(r.path, r.item, nodes);
      if IsLink(e, r, nodes) {
        var n :| n in targets && Joins(e, r, n);
        var i :| 0 <= i < |targets| && targets[i] == n;
        assert EdgesOfRef(r, nodes)[i] == e;
      }
      if e in EdgesOfRef(r, nodes) {
        var i :| 0 <= i < |EdgesOfRef(r, nodes)| && EdgesOfRef(r, nodes)[i] == e;
        assert targets[i] in targets && Joins(e, r, targets[i]);
      }
    } else {
      assert forall m :: m in nodes ==> NodeKey(m) in KeysOf(nodes, NodeKey);
    }
  }

  lemma {:induction false} LinksAre(references: seq<In<Reference>>, nodes: seq<GraphNode>, e: GraphEdge)
    ensures e in BuildEdges(references, nodes) <==> exists r :: r in references && IsLink(e, r, nodes)
    decreases |references|
  {
    if references != [] {
      var init, last := references[..|references| - 1], references[|references| - 1];
      assert references == init + [last];
      LinksAre(init, nodes, e);
      LinksOf(last, nodes, e);
      assert BuildEdges(references, nodes) == BuildEdges(init, nodes) + EdgesOfRef(last, nodes);
    }
  }

  /** Every edge is a definition's or a reference's; and each of theirs has an edge with its ends and kind. */
  lemma EdgesAre(symbols: seq<In<Symbol>>, references: seq<In<Reference>>, e: GraphEdge)
    ensures var g := BuildGraph(symbols, references);
            var given := (exists s :: s in symbols && IsDefines(e, s))
                         || (exists r :: r in references && IsLink(e, r, g.nodes));
            && (e in g.edges ==> given)
            && (given ==> exists f :: f in g.edges && f == e.(line := f.line))
  {
    var g := BuildGraph(symbols, references);
    var keys := KeysOf(g.nodes, NodeKey);
    var defines, links := DefinesEdges(symbols, keys), BuildEdges(references, g.nodes);
    DefinesAre(symbols, references, e);
    LinksAre(references, g.nodes, e);
    DistinctLaws(defines + links, EdgeKey);
    if e in defines + links {
      assert EdgeKey(e) in KeysOf(g.edges, EdgeKey);
      var f :| f in g.edges && EdgeKey(f) == EdgeKey(e);
      assert f == e.(line := f.line);
    }
  }

  lemma DefinesAre(symbols: seq<In<Symbol>>, references: seq<In<Reference>>, e: GraphEdge)
    ensures var keys := KeysOf(BuildGraph(symbols, references).nodes, NodeKey);
            e in DefinesEdges(symbols, keys) <==> exists s :: s in symbols && IsDefines(e, s)
  {
    var keys := KeysOf(BuildGraph(symbols, references).nodes, NodeKey);
    DefinesEdgesExact(symbols, keys);
    if s :| s in symbols && IsDefines(e, s) {
      NodeKeys(symbols, s.path, MODULE_SCOPE);
      assert Names(s, s.path, MODULE_SCOPE);
      assert e == DefinesEdge(s);
    }
  }
}
