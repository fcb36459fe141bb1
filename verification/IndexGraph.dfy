/**
 * The graph of a symbol store (codeintel/infrastructure/store.py, indexer.py): symbols are listed by path
 * and start line, ties in any order, and references in any order. What of the graph every listing of one
 * store determines, and what none does.
 */
module IndexGraph {
  import opened Common
  import opened CodeModel
  import opened Firsts
  import opened GraphBuilder
  import opened Indexer

  datatype Listing = Listing(symbols: seq<In<Symbol>>, references: seq<In<Reference>>)

  // ---------------------------------------------------------------- listings of a store

  /** The order of paths in the database's collation. */
  type Collation = string -> real

  ghost predicate IsCollation(rank: Collation) {
    forall p, q :: rank(p) == rank(q) ==> p == q
  }

  predicate Precedes(rank: Collation, x: In<Symbol>, y: In<Symbol>) {
    rank(x.path) < rank(y.path) || (rank(x.path) == rank(y.path) && x.item.startLine <= y.item.startLine)
  }

  predicate Sorted(rank: Collation, symbols: seq<In<Symbol>>) {
    forall i, j :: 0 <= i < j < |symbols| ==> Precedes(rank, symbols[i], symbols[j])
  }

  /** How often the store holds an item. */
  function Stored<T(==)>(path: string, item: T, files: Files, items: FileRow -> seq<T>): nat {
    if path in files then multiset(items(files[path]))[item] else 0
  }

  function SymbolsOf(row: FileRow): seq<Symbol> { row.symbols }

  function ReferencesOf(row: FileRow): seq<Reference> { row.references }

  /** Every stored symbol and reference as often as it is stored, symbols in order. */
  ghost predicate Lists(rank: Collation, l: Listing, files: Files) {
    && (forall x :: multiset(l.symbols)[x] == Stored(x.path, x.item, files, SymbolsOf))
    && (forall x :: multiset(l.references)[x] == Stored(x.path, x.item, files, ReferencesOf))
    && Sorted(rank, l.symbols)
  }

  lemma ListedSymbols(rank: Collation, l: Listing, files: Files, s: In<Symbol>)
    requires Lists(rank, l, files)
    ensures s in l.symbols <==> s.path in files && s.item in files[s.path].symbols
  {
    assert s in l.symbols <==> multiset(l.symbols)[s] > 0;
    assert s.path in files ==> (s.item in files[s.path].symbols <==> multiset(files[s.path].symbols)[s.item] > 0);
  }

  lemma ListedReferences(rank: Collation, l: Listing, files: Files, r: In<Reference>)
    requires Lists(rank, l, files)
    ensures r in l.references <==> r.path in files && r.item in files[r.path].references
  {
    assert r in l.references <==> multiset(l.references)[r] > 0;
    assert r.path in files ==> (r.item in files[r.path].references <==> multiset(files[r.path].references)[r.item] > 0);
  }

  function GraphOf(l: Listing): Graph { BuildGraph(l.symbols, l.references) }

  /** Two listings of one store hold the same symbols. */
  lemma SameSymbols(rank: Collation, l: Listing, m: Listing, files: Files)
    requires Lists(rank, l, files) && Lists(rank, m, files)
    ensures forall s :: s in l.symbols <==> s in m.symbols
    ensures forall r :: r in l.references <==> r in m.references
  {
    forall s
      ensures s in l.symbols <==> s in m.symbols
    {
      ListedSymbols(rank, l, files, s);
      ListedSymbols(rank, m, files, s);
    }
    forall r
      ensures r in l.references <==> r in m.references
    {
      ListedReferences(rank, l, files, r);
      ListedReferences(rank, m, files, r);
    }
  }

  // ---------------------------------------------------------------- every store has a listing

  lemma {:induction false} InsertSymbol(rank: Collation, xs: seq<In<Symbol>>, x: In<Symbol>)
    returns (ys: seq<In<Symbol>>)
    requires Sorted(rank, xs)
    ensures Sorted(rank, ys) && multiset(ys) == multiset(xs) + multiset{x}
    decreases |xs|
  {
    if xs == [] || Precedes(rank, xs[|xs| - 1], x) {
      ys := xs + [x];
    } else {
      var init, last := xs[..|xs| - 1], xs[|xs| - 1];
      assert xs == init + [last];
      var inner := InsertSymbol(rank, init, x);
      ys := inner + [last];
      forall y | y in inner
        ensures Precedes(rank, y, last)
      {
        assert y in multiset(inner);
        assert y == x || y in init;
      }
    }
  }

  lemma {:induction false} InsertSymbols(rank: Collation, xs: seq<In<Symbol>>, path: string, items: seq<Symbol>)
    returns (ys: seq<In<Symbol>>)
    requires Sorted(rank, xs)
    ensures Sorted(rank, ys)
    ensures forall x :: multiset(ys)[x] == multiset(xs)[x] + if x.path == path then multiset(items)[x.item] else 0
    decreases |items|
  {
    if items == [] {
      ys := xs;
    } else {
      var init, last := items[..|items| - 1], items[|items| - 1];
      assert items == init + [last];
      var inner := InsertSymbols(rank, xs, path, init);
      ys := InsertSymbol(rank, inner, In(path, last));
    }
  }

  lemma {:induction false} AddReferences(xs: seq<In<Reference>>, path: string, items: seq<Reference>)
    returns (ys: seq<In<Reference>>)
    ensures forall x :: multiset(ys)[x] == multiset(xs)[x] + if x.path == path then multiset(items)[x.item] else 0
    decreases |items|
  {
    if items == [] {
      ys := xs;
    } else {
      var init, last := items[..|items| - 1], items[|items| - 1];
      assert items == init + [last];
      var inner := AddReferences(xs, path, init);
      ys := inner + [In(path, last)];
    }
  }

  /** So the reads of a store always have a result. */
  lemma {:induction false} ListingExists(rank: Collation, files: Files) returns (l: Listing)
    ensures Lists(rank, l, files)
    decreases |files|
  {
    if files == map[] {
      l := Listing([], []);
    } else {
      var path :| path in files;
      var rest := files - {path};
      assert rest.Keys == files.Keys - {path};
      assert |rest.Keys| < |files.Keys|;
      var before := ListingExists(rank, rest);
      var symbols := InsertSymbols(rank, before.symbols, path, files[path].symbols);
      var references := AddReferences(before.references, path, files[path].references);
      l := Listing(symbols, references);
    }
  }

  // ---------------------------------------------------------------- moving a tied symbol forward

  predicate Tied(x: In<Symbol>, y: In<Symbol>) { x.path == y.path && x.item.startLine == y.item.startLine }

  function Moved<T>(xs: seq<T>, i: nat, j: nat): (r: seq<T>)
    requires i <= j < |xs|
    ensures |r| == |xs|
  {
    xs[..i] + [xs[j]] + xs[i..j] + xs[j + 1..]
  }

  lemma MovedCounts<T>(xs: seq<T>, i: nat, j: nat)
    requires i <= j < |xs|
    ensures multiset(Moved(xs, i, j)) == multiset(xs)
  {
    assert xs == xs[..i] + xs[i..j] + [xs[j]] + xs[j + 1..];
  }

  lemma TiedBetween(rank: Collation, symbols: seq<In<Symbol>>, i: nat, j: nat, k: nat)
    requires IsCollation(rank) && Sorted(rank, symbols)
    requires i <= k <= j < |symbols| && Tied(symbols[i], symbols[j])
    ensures Tied(symbols[k], symbols[j])
  {
    if i < k { assert Precedes(rank, symbols[i], symbols[k]); }
    if k < j { assert Precedes(rank, symbols[k], symbols[j]); }
  }

  lemma MovedSorted(rank: Collation, symbols: seq<In<Symbol>>, i: nat, j: nat)
    requires IsCollation(rank) && Sorted(rank, symbols)
    requires i <= j < |symbols| && Tied(symbols[i], symbols[j])
    ensures Sorted(rank, Moved(symbols, i, j))
    ensures ModuleNodes(Moved(symbols, i, j)) == ModuleNodes(symbols)
  {
    var moved := Moved(symbols, i, j);
    forall k | i <= k <= j { TiedBetween(rank, symbols, i, j, k); }
    forall k | 0 <= k < |moved|
      ensures moved[k].path == symbols[k].path && moved[k].item.startLine == symbols[k].item.startLine
    {
      assert moved[k] == if k < i || k > j then symbols[k] else if k == i then symbols[j] else symbols[k - 1];
    }
    forall a, b | 0 <= a < b < |moved|
      ensures Precedes(rank, moved[a], moved[b])
    {
      assert Precedes(rank, symbols[a], symbols[b]);
    }
  }

  /** Symbols on one line of one file may be listed in any order. */
  lemma MovedLists(rank: Collation, l: Listing, files: Files, i: nat, j: nat)
    requires IsCollation(rank) && Lists(rank, l, files)
    requires i <= j < |l.symbols| && Tied(l.symbols[i], l.symbols[j])
    ensures Lists(rank, l.(symbols := Moved(l.symbols, i, j)), files)
  {
    MovedCounts(l.symbols, i, j);
    MovedSorted(rank, l.symbols, i, j);
  }

  lemma {:induction false} SymbolNodesConcat(a: seq<In<Symbol>>, b: seq<In<Symbol>>)
    ensures SymbolNodes(a + b) == SymbolNodes(a) + SymbolNodes(b)
    decreases |b|
  {
    if b == [] {
      assert a + b == a;
    } else {
      assert (a + b)[..|a + b| - 1] == a + b[..|b| - 1];
      SymbolNodesConcat(a, b[..|b| - 1]);
    }
  }

  lemma SymbolNodesOne(s: In<Symbol>)
    ensures SymbolNodes([s]) == if s.item.kind.ImportKind? then [] else [SymbolNode(s)]
  {
    assert [s][..0] == [];
  }

  // ---------------------------------------------------------------- the node under a key

  predicate IsDefinition(s: In<Symbol>, path: string, name: string) {
    s.path == path && !s.item.kind.ImportKind? && s.item.qualifiedName == name
  }

  /** A definition of this name on the first line that has one. */
  ghost predicate Least(s: In<Symbol>, path: string, name: string, files: Files) {
    && path in files && s.item in files[path].symbols && IsDefinition(s, path, name)
    && forall o :: o in files[path].symbols && IsDefinition(In(path, o), path, name) ==> s.item.startLine <= o.startLine
  }

  /** The definitions of this name on its first line, if several, look the same as nodes. */
  ghost predicate Untied(files: Files, path: string, name: string) {
    name == MODULE_SCOPE ||
    forall a, b :: Least(a, path, name, files) && Least(b, path, name, files) ==> SymbolNode(a) == SymbolNode(b)
  }

  /** The nodes of the first `k` symbols. */
  function NodesUpTo(symbols: seq<In<Symbol>>, k: nat): seq<GraphNode>
    requires k <= |symbols|
  {
    Distinct(ModuleNodes(symbols) + SymbolNodes(symbols[..k]), NodeKey)
  }

  lemma NodesUpToAll(symbols: seq<In<Symbol>>)
    ensures NodesUpTo(symbols, |symbols|) == BuildNodes(symbols)
  {
    assert symbols[..|symbols|] == symbols;
  }

  lemma NodesUpToNext(symbols: seq<In<Symbol>>, k: nat)
    requires k < |symbols|
    ensures var before, node := NodesUpTo(symbols, k), SymbolNode(symbols[k]);
            NodesUpTo(symbols, k + 1) ==
            if symbols[k].item.kind.ImportKind? || NodeKey(node) in KeysOf(before, NodeKey) then before
            else before + [node]
  {
    SymbolNodesStep(symbols, k, ModuleNodes(symbols));
    var given, node := ModuleNodes(symbols) + SymbolNodes(symbols[..k]), SymbolNode(symbols[k]);
    assert (given + [node])[..|given|] == given;
  }

  lemma ModuleKeyPresent(symbols: seq<In<Symbol>>, k: nat, s: In<Symbol>)
    requires k <= |symbols| && s in symbols
    ensures (s.path, MODULE_SCOPE) in KeysOf(NodesUpTo(symbols, k), NodeKey)
  {
    ModuleNodesAt(symbols, s);
    DistinctLaws(ModuleNodes(symbols) + SymbolNodes(symbols[..k]), NodeKey);
    assert NodeKey(ModuleNode(s.path)) == (s.path, MODULE_SCOPE);
    assert ModuleNode(s.path) in ModuleNodes(symbols) + SymbolNodes(symbols[..k]);
  }

  /** Every node is a module or one of the symbols so far. */
  predicate Sourced(n: GraphNode, symbols: seq<In<Symbol>>, k: nat)
    requires k <= |symbols|
  {
    if n.qualifiedName == MODULE_SCOPE then n == ModuleNode(n.path) && exists s :: s in symbols && s.path == n.path
    else exists i :: 0 <= i < k && !symbols[i].item.kind.ImportKind? && n == SymbolNode(symbols[i])
  }

  /** Modules come first, by path; then definitions, by path and line. */
  predicate NodeLeq(rank: Collation, m: GraphNode, n: GraphNode) {
    if m.qualifiedName == MODULE_SCOPE && n.qualifiedName != MODULE_SCOPE then true
    else if m.qualifiedName != MODULE_SCOPE && n.qualifiedName == MODULE_SCOPE then false
    else rank(m.path) < rank(n.path) || (rank(m.path) == rank(n.path) && m.startLine <= n.startLine)
  }

  predicate NodesSorted(rank: Collation, nodes: seq<GraphNode>) {
    forall i, j :: 0 <= i < j < |nodes| ==> NodeLeq(rank, nodes[i], nodes[j])
  }

  /** Sorted nodes of the modules of the first `k` symbols. */
  ghost predicate ModulesInOrder(rank: Collation, nodes: seq<GraphNode>, symbols: seq<In<Symbol>>, k: nat)
    requires k <= |symbols|
  {
    && NodesSorted(rank, nodes)
    && forall n :: n in nodes ==> n == ModuleNode(n.path) && exists i :: 0 <= i < k && symbols[i].path == n.path
  }

  lemma ModulesNext(rank: Collation, symbols: seq<In<Symbol>>, k: nat, before: seq<GraphNode>)
    requires k < |symbols| && Sorted(rank, symbols) && ModulesInOrder(rank, before, symbols, k)
    ensures ModulesInOrder(rank, before, symbols, k + 1)
    ensures ModulesInOrder(rank, before + [ModuleNode(symbols[k].path)], symbols, k + 1)
  {
    var last := ModuleNode(symbols[k].path);
    forall n | n in before
      ensures NodeLeq(rank, n, last)
    {
      var i :| 0 <= i < k && symbols[i].path == n.path;
      assert Precedes(rank, symbols[i], symbols[k]);
    }
  }

  lemma ModulesGrow(rank: Collation, symbols: seq<In<Symbol>>, k: nat)
    requires k < |symbols| && Sorted(rank, symbols)
    requires ModulesInOrder(rank, Distinct(ModuleNodes(symbols)[..k], NodeKey), symbols, k)
    ensures ModulesInOrder(rank, Distinct(ModuleNodes(symbols)[..k + 1], NodeKey), symbols, k + 1)
  {
    ModulesNext(rank, symbols, k, Distinct(ModuleNodes(symbols)[..k], NodeKey));
    ModuleNodesStep(symbols, k);
    DistinctSnoc(ModuleNodes(symbols)[..k], ModuleNode(symbols[k].path), NodeKey);
  }

  lemma {:induction false} ModulesSorted(rank: Collation, symbols: seq<In<Symbol>>, k: nat)
    requires k <= |symbols| && Sorted(rank, symbols)
    ensures ModulesInOrder(rank, Distinct(ModuleNodes(symbols)[..k], NodeKey), symbols, k)
    decreases k
  {
    if k == 0 {
      assert ModuleNodes(symbols)[..0] == [];
    } else {
      ModulesSorted(rank, symbols, k - 1);
      ModulesGrow(rank, symbols, k - 1);
    }
  }

  lemma SourcedBefore(rank: Collation, symbols: seq<In<Symbol>>, k: nat, n: GraphNode)
    requires k < |symbols| && Sorted(rank, symbols) && Sourced(n, symbols, k)
    ensures Sourced(n, symbols, k + 1)
    ensures symbols[k].item.qualifiedName != MODULE_SCOPE ==> NodeLeq(rank, n, SymbolNode(symbols[k]))
  {
    if n.qualifiedName != MODULE_SCOPE {
      var i :| 0 <= i < k && !symbols[i].item.kind.ImportKind? && n == SymbolNode(symbols[i]);
      assert Precedes(rank, symbols[i], symbols[k]);
    }
  }

  /** Sorted nodes that come from the first `k` symbols. */
  ghost predicate InOrder(rank: Collation, nodes: seq<GraphNode>, symbols: seq<In<Symbol>>, k: nat)
    requires k <= |symbols|
  {
    NodesSorted(rank, nodes) && forall n :: n in nodes ==> Sourced(n, symbols, k)
  }

  lemma NodesStart(rank: Collation, symbols: seq<In<Symbol>>)
    requires Sorted(rank, symbols)
    ensures InOrder(rank, NodesUpTo(symbols, 0), symbols, 0)
  {
    var all := ModuleNodes(symbols);
    assert symbols[..0] == [] && all + [] == all && all[..|symbols|] == all;
    ModulesSorted(rank, symbols, |symbols|);
    forall n | n in NodesUpTo(symbols, 0)
      ensures Sourced(n, symbols, 0)
    {
      var i :| 0 <= i < |symbols| && symbols[i].path == n.path;
    }
  }

  /** A definition's node is its own source, and belongs after all before it. */
  lemma NodesNext(rank: Collation, symbols: seq<In<Symbol>>, k: nat, before: seq<GraphNode>)
    requires k < |symbols| && Sorted(rank, symbols) && InOrder(rank, before, symbols, k)
    ensures InOrder(rank, before, symbols, k + 1)
    ensures !symbols[k].item.kind.ImportKind? && symbols[k].item.qualifiedName != MODULE_SCOPE ==>
              InOrder(rank, before + [SymbolNode(symbols[k])], symbols, k + 1)
  {
    forall n | n in before { SourcedBefore(rank, symbols, k, n); }
  }

  /** What the next symbol does to the nodes so far: nothing, or one node more. */
  lemma NodesGrow(symbols: seq<In<Symbol>>, k: nat)
    requires k < |symbols|
    ensures var before, after := NodesUpTo(symbols, k), NodesUpTo(symbols, k + 1);
            after == before
            || (!symbols[k].item.kind.ImportKind? && symbols[k].item.qualifiedName != MODULE_SCOPE
                && after == before + [SymbolNode(symbols[k])])
  {
    NodesUpToNext(symbols, k);
    ModuleKeyPresent(symbols, k, symbols[k]);
  }

  lemma {:induction false} NodesInOrder(rank: Collation, symbols: seq<In<Symbol>>, k: nat)
    requires k <= |symbols| && Sorted(rank, symbols)
    ensures InOrder(rank, NodesUpTo(symbols, k), symbols, k)
    decreases k
  {
    if k == 0 {
      NodesStart(rank, symbols);
    } else {
      var before := NodesUpTo(symbols, k - 1);
      NodesInOrder(rank, symbols, k - 1);
      NodesGrow(symbols, k - 1);
      NodesNext(rank, symbols, k - 1, before);
    }
  }

  lemma LeastHere(rank: Collation, symbols: seq<In<Symbol>>, i: nat) returns (n: GraphNode)
    requires i < |symbols| && Sorted(rank, symbols)
    requires !symbols[i].item.kind.ImportKind? && symbols[i].item.qualifiedName != MODULE_SCOPE
    ensures n in NodesUpTo(symbols, i + 1) && NodeKey(n) == NodeKey(SymbolNode(symbols[i]))
    ensures n.startLine <= symbols[i].item.startLine
  {
    NodesUpToNext(symbols, i);
    var before, node := NodesUpTo(symbols, i), SymbolNode(symbols[i]);
    if NodeKey(node) in KeysOf(before, NodeKey) {
      n :| n in before && NodeKey(n) == NodeKey(node);
      NodesInOrder(rank, symbols, i);
      SourcedBefore(rank, symbols, i, n);
      assert NodeLeq(rank, n, node);
    } else {
      n := node;
    }
  }

  /** Later symbols only add nodes. */
  lemma {:induction false} NodesStay(symbols: seq<In<Symbol>>, j: nat, k: nat)
    requires j <= k <= |symbols|
    ensures NodesUpTo(symbols, j) <= NodesUpTo(symbols, k)
    decreases k - j
  {
    if j < k {
      NodesGrow(symbols, j);
      NodesStay(symbols, j + 1, k);
    }
  }

  /** No definition starts above the node of its name. */
  lemma NodesAreLeast(rank: Collation, symbols: seq<In<Symbol>>, i: nat) returns (n: GraphNode)
    requires i < |symbols| && Sorted(rank, symbols)
    requires !symbols[i].item.kind.ImportKind? && symbols[i].item.qualifiedName != MODULE_SCOPE
    ensures n in BuildNodes(symbols) && NodeKey(n) == NodeKey(SymbolNode(symbols[i]))
    ensures n.startLine <= symbols[i].item.startLine
  {
    n := LeastHere(rank, symbols, i);
    NodesStay(symbols, i + 1, |symbols|);
    NodesUpToAll(symbols);
  }

  lemma NodeIsAbove(rank: Collation, l: Listing, files: Files, n: GraphNode, o: In<Symbol>)
    requires Lists(rank, l, files) && n in BuildNodes(l.symbols) && n.qualifiedName != MODULE_SCOPE
    requires o in l.symbols && IsDefinition(o, n.path, n.qualifiedName)
    ensures n.startLine <= o.item.startLine
  {
    var j :| 0 <= j < |l.symbols| && l.symbols[j] == o;
    var m := NodesAreLeast(rank, l.symbols, j);
    DistinctLaws(ModuleNodes(l.symbols) + SymbolNodes(l.symbols), NodeKey);
    SameKeySameElement(BuildNodes(l.symbols), NodeKey, m, n);
  }

  /** The node of a name other than the module's is that of a definition on its first line. */
  lemma NodeIsLeast(rank: Collation, l: Listing, files: Files, n: GraphNode) returns (s: In<Symbol>)
    requires Lists(rank, l, files) && n in BuildNodes(l.symbols) && n.qualifiedName != MODULE_SCOPE
    ensures n == SymbolNode(s) && Least(s, n.path, n.qualifiedName, files) && s in l.symbols
  {
    var symbols := l.symbols;
    NodesUpToAll(symbols);
    NodesInOrder(rank, symbols, |symbols|);
    var i :| 0 <= i < |symbols| && !symbols[i].item.kind.ImportKind? && n == SymbolNode(symbols[i]);
    s := symbols[i];
    ListedSymbols(rank, l, files, s);
    forall o | o in files[n.path].symbols && IsDefinition(In(n.path, o), n.path, n.qualifiedName)
      ensures s.item.startLine <= o.startLine
    {
      ListedSymbols(rank, l, files, In(n.path, o));
      NodeIsAbove(rank, l, files, n, In(n.path, o));
    }
  }

  /** The first definition of a name gives its node. */
  lemma FirstDefinition(symbols: seq<In<Symbol>>, i: nat)
    requires i < |symbols| && !symbols[i].item.kind.ImportKind? && symbols[i].item.qualifiedName != MODULE_SCOPE
    requires forall k :: 0 <= k < i ==> !IsDefinition(symbols[k], symbols[i].path, symbols[i].item.qualifiedName)
    ensures SymbolNode(symbols[i]) in BuildNodes(symbols)
  {
    var node := SymbolNode(symbols[i]);
    var front := ModuleNodes(symbols) + SymbolNodes(symbols[..i]);
    var back := SymbolNodes(symbols[i + 1..]);
    NoEarlierKey(symbols, i);
    FirstIsKept(front, node, back, NodeKey);
    SymbolNodesSplit(symbols, i);
    assert ModuleNodes(symbols) + (SymbolNodes(symbols[..i]) + [node] + back) == front + [node] + back;
  }

  lemma SymbolNodesSplit(symbols: seq<In<Symbol>>, i: nat)
    requires i < |symbols| && !symbols[i].item.kind.ImportKind?
    ensures SymbolNodes(symbols) == SymbolNodes(symbols[..i]) + [SymbolNode(symbols[i])] + SymbolNodes(symbols[i + 1..])
  {
    assert symbols == symbols[..i] + [symbols[i]] + symbols[i + 1..];
    SymbolNodesConcat(symbols[..i] + [symbols[i]], symbols[i + 1..]);
    SymbolNodesConcat(symbols[..i], [symbols[i]]);
    SymbolNodesOne(symbols[i]);
  }

  /** A name no earlier symbol defines has no earlier node. */
  lemma NoEarlierKey(symbols: seq<In<Symbol>>, i: nat)
    requires i < |symbols| && symbols[i].item.qualifiedName != MODULE_SCOPE
    requires forall k :: 0 <= k < i ==> !IsDefinition(symbols[k], symbols[i].path, symbols[i].item.qualifiedName)
    ensures NodeKey(SymbolNode(symbols[i])) !in KeysOf(ModuleNodes(symbols) + SymbolNodes(symbols[..i]), NodeKey)
  {
    forall n | n in ModuleNodes(symbols) + SymbolNodes(symbols[..i])
      ensures NodeKey(n) != NodeKey(SymbolNode(symbols[i]))
    {
      if n !in ModuleNodes(symbols) {
        SymbolNodesExact(symbols[..i]);
        var s :| s in symbols[..i] && !s.item.kind.ImportKind? && n == SymbolNode(s);
        var k :| 0 <= k < i && symbols[k] == s;
        assert !IsDefinition(symbols[k], symbols[i].path, symbols[i].item.qualifiedName);
      }
    }
  }

  /** The first position of a name's definitions. */
  lemma {:induction false} FirstPosition(symbols: seq<In<Symbol>>, j: nat, path: string, name: string) returns (i: nat)
    requires j < |symbols| && IsDefinition(symbols[j], path, name)
    ensures i <= j && IsDefinition(symbols[i], path, name)
    ensures forall k :: 0 <= k < i ==> !IsDefinition(symbols[k], path, name)
    decreases j
  {
    if k :| 0 <= k < j && IsDefinition(symbols[k], path, name) {
      i := FirstPosition(symbols, k, path, name);
    } else {
      i := j;
    }
  }

  /** A definition on its name's first line is on the line of the first one listed. */
  lemma LeastIsTied(rank: Collation, l: Listing, files: Files, i: nat, j: nat, path: string, name: string)
    requires IsCollation(rank) && Lists(rank, l, files) && i <= j < |l.symbols|
    requires Least(l.symbols[j], path, name, files) && IsDefinition(l.symbols[i], path, name)
    ensures Tied(l.symbols[i], l.symbols[j])
  {
    var symbols := l.symbols;
    ListedSymbols(rank, l, files, symbols[i]);
    assert symbols[i] == In(path, symbols[i].item);
    if i < j { assert Precedes(rank, symbols[i], symbols[j]); }
  }

  lemma MovedIsFirst(symbols: seq<In<Symbol>>, i: nat, j: nat, path: string, name: string)
    requires i <= j < |symbols| && name != MODULE_SCOPE && IsDefinition(symbols[j], path, name)
    requires forall k :: 0 <= k < i ==> !IsDefinition(symbols[k], path, name)
    ensures SymbolNode(symbols[j]) in BuildNodes(Moved(symbols, i, j))
  {
    var moved := Moved(symbols, i, j);
    assert moved[i] == symbols[j] && forall k :: 0 <= k < i ==> moved[k] == symbols[k];
    FirstDefinition(moved, i);
  }

  /** Some listing gives a name the node of any definition on its first line. */
  lemma AnyLeastCanWin(rank: Collation, l: Listing, files: Files, s: In<Symbol>, path: string, name: string)
    returns (m: Listing)
    requires IsCollation(rank) && Lists(rank, l, files) && Least(s, path, name, files) && name != MODULE_SCOPE
    ensures Lists(rank, m, files) && SymbolNode(s) in BuildNodes(m.symbols)
  {
    ListedSymbols(rank, l, files, s);
    var j :| 0 <= j < |l.symbols| && l.symbols[j] == s;
    var i := FirstPosition(l.symbols, j, path, name);
    LeastIsTied(rank, l, files, i, j, path, name);
    m := l.(symbols := Moved(l.symbols, i, j));
    MovedLists(rank, l, files, i, j);
    MovedIsFirst(l.symbols, i, j, path, name);
  }

  /**
   * Every listing gives a name the same node exactly when the name's definitions on its first line, if there
   * are several, agree in kind and short name.
   */
  lemma NodeDeterminedIff(rank: Collation, l: Listing, files: Files, path: string, name: string)
    requires IsCollation(rank) && Lists(rank, l, files)
    ensures Untied(files, path, name) <==>
            forall m, n :: Lists(rank, m, files) && n in BuildNodes(m.symbols) && NodeKey(n) == (path, name) ==>
                             n in BuildNodes(l.symbols)
  {
    if Untied(files, path, name) {
      forall m, n | Lists(rank, m, files) && n in BuildNodes(m.symbols) && NodeKey(n) == (path, name)
        ensures n in BuildNodes(l.symbols)
      {
        UntiedNode(rank, l, m, files, n);
      }
    } else {
      var a, b :| Least(a, path, name, files) && Least(b, path, name, files) && SymbolNode(a) != SymbolNode(b);
      var m := AnyLeastCanWin(rank, l, files, a, path, name);
      var o := AnyLeastCanWin(rank, l, files, b, path, name);
      DistinctLaws(ModuleNodes(l.symbols) + SymbolNodes(l.symbols), NodeKey);
      if SymbolNode(a) in BuildNodes(l.symbols) && SymbolNode(b) in BuildNodes(l.symbols) {
        SameKeySameElement(BuildNodes(l.symbols), NodeKey, SymbolNode(a), SymbolNode(b));
      }
    }
  }

  /** Which keys have nodes is the same in every listing. */
  lemma SameNodeKeys(rank: Collation, l: Listing, m: Listing, files: Files)
    requires Lists(rank, l, files) && Lists(rank, m, files)
    ensures KeysOf(BuildNodes(l.symbols), NodeKey) == KeysOf(BuildNodes(m.symbols), NodeKey)
  {
    SameSymbols(rank, l, m, files);
    forall key: Key
      ensures key in KeysOf(BuildNodes(l.symbols), NodeKey) <==> key in KeysOf(BuildNodes(m.symbols), NodeKey)
    {
      NodeKeys(l.symbols, key.0, key.1);
      NodeKeys(m.symbols, key.0, key.1);
    }
  }

  /** A module's node is the one of its path. */
  lemma ModuleNodeIs(rank: Collation, l: Listing, files: Files, n: GraphNode)
    requires Lists(rank, l, files) && n in BuildNodes(l.symbols) && n.qualifiedName == MODULE_SCOPE
    ensures n == ModuleNode(n.path)
  {
    NodesUpToAll(l.symbols);
    NodesInOrder(rank, l.symbols, |l.symbols|);
  }

  lemma UntiedNode(rank: Collation, l: Listing, m: Listing, files: Files, n: GraphNode)
    requires Lists(rank, l, files) && Lists(rank, m, files) && n in BuildNodes(m.symbols)
    requires Untied(files, n.path, n.qualifiedName)
    ensures n in BuildNodes(l.symbols)
  {
    SameNodeKeys(rank, l, m, files);
    assert NodeKey(n) in KeysOf(BuildNodes(m.symbols), NodeKey);
    var o :| o in BuildNodes(l.symbols) && NodeKey(o) == NodeKey(n);
    if n.qualifiedName == MODULE_SCOPE {
      ModuleNodeIs(rank, l, files, o);
      ModuleNodeIs(rank, m, files, n);
    } else {
      var a := NodeIsLeast(rank, l, files, o);
      var b := NodeIsLeast(rank, m, files, n);
    }
  }
}
