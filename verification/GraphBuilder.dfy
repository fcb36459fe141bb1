/**
 * Symbols and references into nodes and edges (codeintel/application/graph_builder.py),
 * and the table rebuild that persists them (codeintel/infrastructure/graph_store.py).
 */
module GraphBuilder {
  import opened Common
  import opened CodeModel
  import opened Firsts

  datatype GraphNode = GraphNode(path: string, qualifiedName: string, name: string, kind: SymbolKind, startLine: nat)

  datatype GraphEdge = GraphEdge(srcPath: string, srcName: string, dstPath: string, dstName: string, kind: EdgeKind,
                                 line: Option<nat>)

  /** A symbol or reference with the file it was found in. */
  datatype In<T> = In(path: string, item: T)

  type Key = (string, string)

  function NodeKey(n: GraphNode): Key { (n.path, n.qualifiedName) }

  function EdgeKey(e: GraphEdge): (Key, Key, EdgeKind) { ((e.srcPath, e.srcName), (e.dstPath, e.dstName), e.kind) }

  function SrcKey(e: GraphEdge): Key { (e.srcPath, e.srcName) }

  function DstKey(e: GraphEdge): Key { (e.dstPath, e.dstName) }

  const MAX_TARGETS: nat := 8

  // ---------------------------------------------------------------- nodes

  function AfterLast(s: string, c: char): string {
    if s == "" then "" else if s[|s| - 1] == c then "" else AfterLast(s[..|s| - 1], c) + [s[|s| - 1]]
  }

  function BeforeLast(s: string, c: char): string {
    if c !in s then s else if s[|s| - 1] == c then s[..|s| - 1] else BeforeLast(s[..|s| - 1], c)
  }

  /** The file stem: the last path component without its last extension. */
  function ModuleName(path: string): string { BeforeLast(AfterLast(path, '/'), '.') }

  function ModuleNode(path: string): GraphNode { GraphNode(path, MODULE_SCOPE, ModuleName(path), ModuleKind, 1) }

  function SymbolNode(s: In<Symbol>): GraphNode {
    GraphNode(s.path, s.item.qualifiedName, s.item.name, s.item.kind, s.item.startLine)
  }

  function ModuleNodes(symbols: seq<In<Symbol>>): seq<GraphNode> {
    seq(|symbols|, i requires 0 <= i < |symbols| => ModuleNode(symbols[i].path))
  }

  function SymbolNodes(symbols: seq<In<Symbol>>): seq<GraphNode> {
    if symbols == [] then []
    else
      var last := symbols[|symbols| - 1];
      SymbolNodes(symbols[..|symbols| - 1]) + if last.item.kind.ImportKind? then [] else [SymbolNode(last)]
  }

  /** Module nodes first, then definitions; of two with one key, the first stays. */
  function BuildNodes(symbols: seq<In<Symbol>>): seq<GraphNode> {
    Distinct(ModuleNodes(symbols) + SymbolNodes(symbols), NodeKey)
  }

  lemma {:induction false} SymbolNodesExact(symbols: seq<In<Symbol>>)
    ensures forall s :: s in symbols && !s.item.kind.ImportKind? ==> SymbolNode(s) in SymbolNodes(symbols)
    ensures forall n :: n in SymbolNodes(symbols) ==>
            exists s :: s in symbols && !s.item.kind.ImportKind? && n == SymbolNode(s)
    decreases |symbols|
  {
    if symbols != [] {
      SymbolNodesExact(symbols[..|symbols| - 1]);
    }
  }

  /** A symbol that gives its file a node of this name. */
  predicate Names(s: In<Symbol>, path: string, name: string) {
    s.path == path && (name == MODULE_SCOPE || (!s.item.kind.ImportKind? && s.item.qualifiedName == name))
  }

  lemma ModuleNodesAt(symbols: seq<In<Symbol>>, s: In<Symbol>)
    requires s in symbols
    ensures ModuleNode(s.path) in ModuleNodes(symbols)
  {
    var i :| 0 <= i < |symbols| && symbols[i] == s;
    assert ModuleNodes(symbols)[i] == ModuleNode(s.path);
  }

  lemma NodeIsNamed(symbols: seq<In<Symbol>>, n: GraphNode) returns (s: In<Symbol>)
    requires n in ModuleNodes(symbols) + SymbolNodes(symbols)
    ensures s in symbols && Names(s, n.path, n.qualifiedName)
  {
    if n in ModuleNodes(symbols) {
      var i :| 0 <= i < |symbols| && n == ModuleNode(symbols[i].path);
      s := symbols[i];
    } else {
      SymbolNodesExact(symbols);
      s :| s in symbols && !s.item.kind.ImportKind? && n == SymbolNode(s);
    }
  }

  lemma NamedHasNode(symbols: seq<In<Symbol>>, s: In<Symbol>, path: string, name: string) returns (n: GraphNode)
    requires s in symbols && Names(s, path, name)
    ensures n in ModuleNodes(symbols) + SymbolNodes(symbols) && NodeKey(n) == (path, name)
  {
    if name == MODULE_SCOPE {
      ModuleNodesAt(symbols, s);
      n := ModuleNode(path);
    } else {
      SymbolNodesExact(symbols);
      n := SymbolNode(s);
    }
  }

  /** Which keys have nodes: every file's module, and every definition. */
  lemma NodeKeys(symbols: seq<In<Symbol>>, path: string, name: string)
    ensures (path, name) in KeysOf(BuildNodes(symbols), NodeKey) <==> exists s :: s in symbols && Names(s, path, name)
  {
    var all := ModuleNodes(symbols) + SymbolNodes(symbols);
    DistinctLaws(all, NodeKey);
    if (path, name) in KeysOf(all, NodeKey) {
      var n :| n in all && NodeKey(n) == (path, name);
      var s := NodeIsNamed(symbols, n);
    }
    if s :| s in symbols && Names(s, path, name) {
      var n := NamedHasNode(symbols, s, path, name);
    }
  }

  // ---------------------------------------------------------------- edges

  function TargetKinds(kind: EdgeKind): set<SymbolKind> {
    match kind
    case Calls => {FunctionKind, MethodKind, ClassKind, StructKind}
    case Inherits => {ClassKind, InterfaceKind, StructKind, TraitKind, EnumKind}
    case Imports => {ClassKind, FunctionKind, MethodKind, InterfaceKind, StructKind, EnumKind, TraitKind, ImportKind,
                     ModuleKind}
    case Defines => {}
  }

  predicate Fits(n: GraphNode, ref: Reference) { n.name == ref.targetName && n.kind in TargetKinds(ref.kind) }

  function Fitting(ref: Reference): GraphNode -> bool { (n: GraphNode) => Fits(n, ref) }

  function InFile(path: string): GraphNode -> bool { (n: GraphNode) => n.path == path }

  /** Never the referring scope itself. */
  function OtherThan(path: string, name: string): GraphNode -> bool {
    (n: GraphNode) => !(n.path == path && n.qualifiedName == name)
  }

  function Candidates(ref: Reference, nodes: seq<GraphNode>): seq<GraphNode> { Filter(nodes, Fitting(ref)) }

  /** Same-file definitions shadow all others, and no node links to itself. */
  function Linked(path: string, ref: Reference, nodes: seq<GraphNode>): seq<GraphNode> {
    var candidates := Candidates(ref, nodes);
    var sameFile := Filter(candidates, InFile(path));
    Filter(if sameFile != [] then sameFile else candidates, OtherThan(path, ref.fromQualifiedName))
  }

  /** At most eight of them. */
  function ResolveTargets(path: string, ref: Reference, nodes: seq<GraphNode>): seq<GraphNode> {
    Take(Linked(path, ref, nodes), MAX_TARGETS)
  }

  lemma TargetsLaws(path: string, ref: Reference, nodes: seq<GraphNode>)
    ensures var targets := ResolveTargets(path, ref, nodes);
            && |targets| <= MAX_TARGETS
            && (forall n :: n in targets ==> n in nodes && n.name == ref.targetName && n.kind in TargetKinds(ref.kind)
                                             && NodeKey(n) != (path, ref.fromQualifiedName))
            && ((exists n :: n in Candidates(ref, nodes) && n.path == path) ==>
                  forall n :: n in targets ==> n.path == path)
  {
    if n :| n in Candidates(ref, nodes) && n.path == path {
      assert n in Filter(Candidates(ref, nodes), InFile(path));
    }
    forall n | n in ResolveTargets(path, ref, nodes)
      ensures n in Linked(path, ref, nodes)
    {
    }
  }

  function RefEdge(r: In<Reference>, target: GraphNode): GraphEdge {
    GraphEdge(r.path, r.item.fromQualifiedName, target.path, target.qualifiedName, r.item.kind, Some(r.item.line))
  }

  function EdgesOfRef(r: In<Reference>, nodes: seq<GraphNode>): seq<GraphEdge> {
    if (r.path, r.item.fromQualifiedName) !in KeysOf(nodes, NodeKey) then []
    else
      var targets := ResolveTargets(r.path, r.item, nodes);
      seq(|targets|, i requires 0 <= i < |targets| => RefEdge(r, targets[i]))
  }

  function BuildEdges(references: seq<In<Reference>>, nodes: seq<GraphNode>): seq<GraphEdge> {
    if references == [] then []
    else BuildEdges(references[..|references| - 1], nodes) + EdgesOfRef(references[|references| - 1], nodes)
  }

  function DefinesEdge(s: In<Symbol>): GraphEdge {
    GraphEdge(s.path, MODULE_SCOPE, s.path, s.item.qualifiedName, Defines, Some(s.item.startLine))
  }

  function DefinesEdges(symbols: seq<In<Symbol>>, keys: set<Key>): seq<GraphEdge> {
    if symbols == [] then []
    else
      var last := symbols[|symbols| - 1];
      DefinesEdges(symbols[..|symbols| - 1], keys)
      + if last.item.kind.ImportKind? || (last.path, MODULE_SCOPE) !in keys then [] else [DefinesEdge(last)]
  }

  datatype Graph = Graph(nodes: seq<GraphNode>, edges: seq<GraphEdge>)

  function BuildGraph(symbols: seq<In<Symbol>>, references: seq<In<Reference>>): Graph {
    var nodes := BuildNodes(symbols);
    Graph(nodes, Distinct(DefinesEdges(symbols, KeysOf(nodes, NodeKey)) + BuildEdges(references, nodes), EdgeKey))
  }

  predicate Attached(e: GraphEdge, nodes: seq<GraphNode>) {
    SrcKey(e) in KeysOf(nodes, NodeKey) && DstKey(e) in KeysOf(nodes, NodeKey)
  }

  lemma RefEdgesAttached(r: In<Reference>, nodes: seq<GraphNode>)
    ensures forall e :: e in EdgesOfRef(r, nodes) ==> Attached(e, nodes) && SrcKey(e) != DstKey(e)
    ensures |EdgesOfRef(r, nodes)| <= MAX_TARGETS
  {
    TargetsLaws(r.path, r.item, nodes);
    forall e | e in EdgesOfRef(r, nodes)
      ensures Attached(e, nodes) && SrcKey(e) != DstKey(e)
    {
      var targets := ResolveTargets(r.path, r.item, nodes);
      var i :| 0 <= i < |targets| && e == RefEdge(r, targets[i]);
      assert targets[i] in nodes;
      assert NodeKey(targets[i]) in KeysOf(nodes, NodeKey);
    }
  }

  lemma {:induction false} BuildEdgesAttached(references: seq<In<Reference>>, nodes: seq<GraphNode>)
    ensures forall e :: e in BuildEdges(references, nodes) ==> Attached(e, nodes) && SrcKey(e) != DstKey(e)
    decreases |references|
  {
    if references != [] {
      BuildEdgesAttached(references[..|references| - 1], nodes);
      RefEdgesAttached(references[|references| - 1], nodes);
    }
  }

  lemma {:induction false} DefinesEdgesExact(symbols: seq<In<Symbol>>, keys: set<Key>)
    ensures forall e :: e in DefinesEdges(symbols, keys) ==>
                          exists s :: s in symbols && !s.item.kind.ImportKind? && e == DefinesEdge(s)
    ensures forall s :: s in symbols && !s.item.kind.ImportKind? && (s.path, MODULE_SCOPE) in keys ==>
                          DefinesEdge(s) in DefinesEdges(symbols, keys)
    decreases |symbols|
  {
    if symbols != [] {
      DefinesEdgesExact(symbols[..|symbols| - 1], keys);
    }
  }

  predicate DefinesModuleName(symbols: seq<In<Symbol>>) {
    exists s :: s in symbols && !s.item.kind.ImportKind? && s.item.qualifiedName == MODULE_SCOPE
  }

  /**
   * The graph of any symbols and references: node keys are distinct, edges are distinct on their
   * endpoints and kind, and every endpoint is an emitted node. A self-link can only be a module
   * defining a symbol that carries the module's own reserved name.
   */
  lemma GraphIsWellFormed(symbols: seq<In<Symbol>>, references: seq<In<Reference>>)
    ensures var g := BuildGraph(symbols, references);
            && DistinctOn(g.nodes, NodeKey) && DistinctOn(g.edges, EdgeKey)
            && (forall e :: e in g.edges ==> Attached(e, g.nodes))
            && (forall e :: e in g.edges && SrcKey(e) == DstKey(e) ==>
                              e.kind == Defines && DefinesModuleName(symbols))
  {
    var g := BuildGraph(symbols, references);
    var keys := KeysOf(g.nodes, NodeKey);
    var defines, links := DefinesEdges(symbols, keys), BuildEdges(references, g.nodes);
    DistinctLaws(ModuleNodes(symbols) + SymbolNodes(symbols), NodeKey);
    DistinctLaws(defines + links, EdgeKey);
    BuildEdgesAttached(references, g.nodes);
    DefinesEdgesExact(symbols, keys);
    forall e | e in g.edges
      ensures Attached(e, g.nodes)
      ensures SrcKey(e) == DstKey(e) ==>
                e.kind == Defines && DefinesModuleName(symbols)
    {
      if e in defines {
        var s :| s in symbols && !s.item.kind.ImportKind? && e == DefinesEdge(s);
        NodeKeys(symbols, s.path, MODULE_SCOPE);
        NodeKeys(symbols, s.path, s.item.qualifiedName);
      }
    }
  }

  /** What the parser guarantees of a reference: its scope is the module or a definition of its file. */
  predicate Scoped(r: In<Reference>, symbols: seq<In<Symbol>>) {
    exists s :: s in symbols && s.path == r.path
                && (r.item.fromQualifiedName == MODULE_SCOPE
                    || (!s.item.kind.ImportKind? && s.item.qualifiedName == r.item.fromQualifiedName))
  }

  /**
   * No scoped reference is dropped for want of a source node; what it yields is one edge per resolved
   * target, each represented in the graph by an edge with the same endpoints and kind.
   */
  lemma {:induction false} ReferencesAreKept(symbols: seq<In<Symbol>>, references: seq<In<Reference>>, r: In<Reference>)
    requires r in references && Scoped(r, symbols)
    ensures var g := BuildGraph(symbols, references);
            forall n :: n in ResolveTargets(r.path, r.item, g.nodes) ==>
                          EdgeKey(RefEdge(r, n)) in KeysOf(g.edges, EdgeKey)
  {
    var g := BuildGraph(symbols, references);
    var defines := DefinesEdges(symbols, KeysOf(g.nodes, NodeKey));
    NodeKeys(symbols, r.path, r.item.fromQualifiedName);
    DistinctLaws(defines + BuildEdges(references, g.nodes), EdgeKey);
    forall n | n in ResolveTargets(r.path, r.item, g.nodes)
      ensures EdgeKey(RefEdge(r, n)) in KeysOf(g.edges, EdgeKey)
    {
      var targets := ResolveTargets(r.path, r.item, g.nodes);
      var i :| 0 <= i < |targets| && targets[i] == n;
      assert EdgesOfRef(r, g.nodes)[i] == RefEdge(r, n);
      EdgeOfMember(references, g.nodes, r, RefEdge(r, n));
      assert RefEdge(r, n) in defines + BuildEdges(references, g.nodes);
    }
  }

  lemma {:induction false} EdgeOfMember(references: seq<In<Reference>>, nodes: seq<GraphNode>, r: In<Reference>,
                                        e: GraphEdge)
    requires r in references && e in EdgesOfRef(r, nodes)
    ensures e in BuildEdges(references, nodes)
    decreases |references|
  {
    if references[|references| - 1] != r {
      var before := references[..|references| - 1];
      assert references == before + [references[|references| - 1]];
      EdgeOfMember(before, nodes, r, e);
    }
  }

  /** Every definition is reached from its module by a defines edge. */
  lemma DefinitionsAreDefined(symbols: seq<In<Symbol>>, references: seq<In<Reference>>, s: In<Symbol>)
    requires s in symbols && !s.item.kind.ImportKind?
    ensures EdgeKey(DefinesEdge(s)) in KeysOf(BuildGraph(symbols, references).edges, EdgeKey)
  {
    var g := BuildGraph(symbols, references);
    var defines := DefinesEdges(symbols, KeysOf(g.nodes, NodeKey));
    NodeKeys(symbols, s.path, MODULE_SCOPE);
    DefinesEdgesExact(symbols, KeysOf(g.nodes, NodeKey));
    DistinctLaws(defines + BuildEdges(references, g.nodes), EdgeKey);
    assert DefinesEdge(s) in defines + BuildEdges(references, g.nodes);
  }

  // ---------------------------------------------------------------- the loops

  /** The module loop: a key set beside the list decides what is new. */
  method CollectModules(symbols: seq<In<Symbol>>) returns (nodes: seq<GraphNode>, keys: set<Key>)
    ensures nodes == Distinct(ModuleNodes(symbols), NodeKey) && keys == KeysOf(nodes, NodeKey)
  {
    ghost var given: seq<GraphNode> := [];
    nodes, keys := [], {};
    for i := 0 to |symbols|
      invariant given == ModuleNodes(symbols)[..i]
      invariant nodes == Distinct(given, NodeKey) && keys == KeysOf(nodes, NodeKey)
    {
      var node := ModuleNode(symbols[i].path);
      nodes, keys := Add(nodes, keys, node, given);
      given := given + [node];
      ModuleNodesStep(symbols, i);
    }
    assert given == ModuleNodes(symbols);
  }

  lemma ModuleNodesStep(symbols: seq<In<Symbol>>, i: nat)
    requires i < |symbols|
    ensures ModuleNodes(symbols)[..i + 1] == ModuleNodes(symbols)[..i] + [ModuleNode(symbols[i].path)]
  {
  }

  /** The definition loop goes on from the modules; imports are edges, not nodes. */
  method CollectNodes(symbols: seq<In<Symbol>>) returns (nodes: seq<GraphNode>, keys: set<Key>)
    ensures nodes == BuildNodes(symbols) && keys == KeysOf(nodes, NodeKey)
  {
    ghost var given := ModuleNodes(symbols);
    nodes, keys := CollectModules(symbols);
    assert given + [] == given;
    for i := 0 to |symbols|
      invariant given == ModuleNodes(symbols) + SymbolNodes(symbols[..i])
      invariant nodes == Distinct(given, NodeKey) && keys == KeysOf(nodes, NodeKey)
    {
      SymbolNodesStep(symbols, i, ModuleNodes(symbols));
      if !symbols[i].item.kind.ImportKind? {
        nodes, keys := Add(nodes, keys, SymbolNode(symbols[i]), given);
        given := given + [SymbolNode(symbols[i])];
      }
    }
    assert symbols[..|symbols|] == symbols;
  }

  lemma SymbolNodesStep(symbols: seq<In<Symbol>>, i: nat, front: seq<GraphNode>)
    requires i < |symbols|
    ensures front + SymbolNodes(symbols[..i + 1]) ==
            if symbols[i].item.kind.ImportKind? then front + SymbolNodes(symbols[..i])
            else front + SymbolNodes(symbols[..i]) + [SymbolNode(symbols[i])]
  {
    assert symbols[..i + 1][..i] == symbols[..i];
  }

  method Add(nodes: seq<GraphNode>, keys: set<Key>, node: GraphNode, ghost given: seq<GraphNode>)
    returns (nodes': seq<GraphNode>, keys': set<Key>)
    requires nodes == Distinct(given, NodeKey) && keys == KeysOf(nodes, NodeKey)
    ensures nodes' == Distinct(given + [node], NodeKey) && keys' == KeysOf(nodes', NodeKey)
  {
    assert (given + [node])[..|given|] == given;
    if NodeKey(node) in keys { return nodes, keys; }
    KeysSnoc(nodes, node, NodeKey);
    return nodes + [node], keys + {NodeKey(node)};
  }

  /** The deduplicating loop over the edges. */
  method Dedupe(edges: seq<GraphEdge>) returns (kept: seq<GraphEdge>)
    ensures kept == Distinct(edges, EdgeKey)
  {
    kept := [];
    var seen := {};
    for i := 0 to |edges|
      invariant kept == Distinct(edges[..i], EdgeKey) && seen == KeysOf(kept, EdgeKey)
    {
      assert edges[..i + 1][..i] == edges[..i];
      if EdgeKey(edges[i]) !in seen {
        KeysSnoc(kept, edges[i], EdgeKey);
        kept, seen := kept + [edges[i]], seen + {EdgeKey(edges[i])};
      }
    }
    assert edges[..|edges|] == edges;
  }

  method CollectEdges(symbols: seq<In<Symbol>>, references: seq<In<Reference>>, nodes: seq<GraphNode>, keys: set<Key>)
    returns (edges: seq<GraphEdge>)
    requires keys == KeysOf(nodes, NodeKey)
    ensures edges == DefinesEdges(symbols, keys) + BuildEdges(references, nodes)
  {
    var defines: seq<GraphEdge> := [];
    for i := 0 to |symbols|
      invariant defines == DefinesEdges(symbols[..i], keys)
    {
      assert symbols[..i + 1][..i] == symbols[..i];
      if !symbols[i].item.kind.ImportKind? && (symbols[i].path, MODULE_SCOPE) in keys {
        defines := defines + [DefinesEdge(symbols[i])];
      }
    }
    assert symbols[..|symbols|] == symbols;
    var links: seq<GraphEdge> := [];
    for i := 0 to |references|
      invariant links == BuildEdges(references[..i], nodes)
    {
      assert references[..i + 1][..i] == references[..i];
      var found := LinkReference(references[i], nodes, keys);
      links := links + found;
    }
    assert references[..|references|] == references;
    edges := defines + links;
  }

  method LinkReference(r: In<Reference>, nodes: seq<GraphNode>, keys: set<Key>) returns (found: seq<GraphEdge>)
    requires keys == KeysOf(nodes, NodeKey)
    ensures found == EdgesOfRef(r, nodes)
  {
    found := [];
    if (r.path, r.item.fromQualifiedName) !in keys { return; }
    var targets := ResolveTargets(r.path, r.item, nodes);
    for i := 0 to |targets|
      invariant |found| == i && found == EdgesOfRef(r, nodes)[..i]
    {
      found := found + [RefEdge(r, targets[i])];
    }
  }

  method Build(symbols: seq<In<Symbol>>, references: seq<In<Reference>>) returns (g: Graph)
    ensures g == BuildGraph(symbols, references)
  {
    var nodes, keys := CollectNodes(symbols);
    var edges := CollectEdges(symbols, references, nodes, keys);
    var kept := Dedupe(edges);
    g := Graph(nodes, kept);
  }

  // ---------------------------------------------------------------- the stored tables

  datatype EdgeRow = EdgeRow(src: nat, dst: nat, kind: EdgeKind, line: Option<nat>)

  /** The two tables; a node row's identifier is its position plus the identifiers used before. */
  class GraphTables {
    var used: nat
    var nodeRows: map<nat, GraphNode>
    var edgeRows: seq<EdgeRow>

    constructor ()
      ensures nodeRows == map[] && edgeRows == []
    {
      used, nodeRows, edgeRows := 0, map[], [];
    }

    /** Every stored edge row joins two stored nodes and stands for the edge between them. */
    predicate RowFor(row: EdgeRow, e: GraphEdge)
      reads this
    {
      && row.src in nodeRows && row.dst in nodeRows
      && NodeKey(nodeRows[row.src]) == SrcKey(e) && NodeKey(nodeRows[row.dst]) == DstKey(e)
      && row.kind == e.kind && row.line == e.line
    }

    /** Deletes both tables, then inserts nodes, then edges; a well-formed graph loses no edge. */
    method Rebuild(g: Graph)
      requires DistinctOn(g.nodes, NodeKey)
      requires forall e :: e in g.edges ==> Attached(e, g.nodes)
      modifies this
      ensures nodeRows.Values == set n | n in g.nodes
      ensures |nodeRows| == |g.nodes|
      ensures |edgeRows| == |g.edges| && forall i :: 0 <= i < |edgeRows| ==> RowFor(edgeRows[i], g.edges[i])
    {
      edgeRows, nodeRows := [], map[];
      var ids := InsertNodes(g.nodes);
      InsertEdges(g.edges, ids);
    }

    method InsertNodes(nodes: seq<GraphNode>) returns (ids: map<Key, nat>)
      requires nodeRows == map[]
      modifies this`nodeRows, this`used
      ensures nodeRows.Values == (set n | n in nodes) && |nodeRows| == |nodes|
      ensures ids.Keys == KeysOf(nodes, NodeKey)
      ensures forall key :: key in ids ==> ids[key] in nodeRows && NodeKey(nodeRows[ids[key]]) == key
    {
      ids := map[];
      ghost var first := used;
      assert nodes[..0] == [];
      for i := 0 to |nodes|
        invariant used == first + i
        invariant nodeRows == RowsOf(first, nodes[..i]) && ids == IdsOf(first, nodes[..i])
      {
        assert nodes[..i + 1][..i] == nodes[..i];
        ids := ids[NodeKey(nodes[i]) := used];
        nodeRows := nodeRows[used := nodes[i]];
        used := used + 1;
      }
      assert nodes[..|nodes|] == nodes;
      RowsLaws(first, nodes);
    }

    method InsertEdges(edges: seq<GraphEdge>, ids: map<Key, nat>)
      requires edgeRows == []
      requires forall key :: key in ids ==> ids[key] in nodeRows && NodeKey(nodeRows[ids[key]]) == key
      requires forall e :: e in edges ==> SrcKey(e) in ids && DstKey(e) in ids
      modifies this`edgeRows
      ensures |edgeRows| == |edges| && forall i :: 0 <= i < |edgeRows| ==> RowFor(edgeRows[i], edges[i])
    {
      for i := 0 to |edges|
        invariant |edgeRows| == i && forall j :: 0 <= j < i ==> RowFor(edgeRows[j], edges[j])
      {
        var e := edges[i];
        assert e in edges;
        if SrcKey(e) in ids && DstKey(e) in ids {
          edgeRows := edgeRows + [EdgeRow(ids[SrcKey(e)], ids[DstKey(e)], e.kind, e.line)];
        }
      }
    }
  }

  /** The node rows, numbered from `first`. */
  function RowsOf(first: nat, nodes: seq<GraphNode>): map<nat, GraphNode> {
    if nodes == [] then map[]
    else RowsOf(first, nodes[..|nodes| - 1])[first + |nodes| - 1 := nodes[|nodes| - 1]]
  }

  /** The identifier given to each key. */
  function IdsOf(first: nat, nodes: seq<GraphNode>): map<Key, nat> {
    if nodes == [] then map[]
    else IdsOf(first, nodes[..|nodes| - 1])[NodeKey(nodes[|nodes| - 1]) := first + |nodes| - 1]
  }

  lemma {:induction false} RowsLaws(first: nat, nodes: seq<GraphNode>)
    ensures var rows, ids := RowsOf(first, nodes), IdsOf(first, nodes);
            && (forall k :: k in rows ==> first <= k < first + |nodes|)
            && |rows| == |nodes| && rows.Values == (set n | n in nodes)
            && ids.Keys == KeysOf(nodes, NodeKey)
            && (forall key :: key in ids ==> ids[key] in rows && NodeKey(rows[ids[key]]) == key)
    decreases |nodes|
  {
    if nodes != [] {
      var before, last := nodes[..|nodes| - 1], nodes[|nodes| - 1];
      assert nodes == before + [last];
      RowsLaws(first, before);
      KeysSnoc(before, last, NodeKey);
      var rows, rows' := RowsOf(first, before), RowsOf(first, nodes);
      assert first + |before| !in rows;
      assert rows'.Values == rows.Values + {last} by {
        assert rows'[first + |before|] == last;
        assert forall k :: k in rows ==> rows'[k] == rows[k];
      }
    }
  }
}
