/**
 * Which edges every listing of a symbol store gives (codeintel/application/graph_builder.py over the reads
 * of codeintel/infrastructure/store.py): a reference's targets up to the cut at eight, edge keys, edge lines.
 */
module IndexEdges {
  import opened Common
  import opened CodeModel
  import opened Firsts
  import opened GraphBuilder
  import opened Indexer
  import opened IndexGraph

  ghost predicate AllUntied(files: Files) {
    forall path, name :: Untied(files, path, name)
  }

  /** Without ties every listing gives the same nodes. */
  lemma SameNodes(rank: Collation, l: Listing, m: Listing, files: Files)
    requires Lists(rank, l, files) && Lists(rank, m, files) && AllUntied(files)
    ensures forall n :: n in BuildNodes(l.symbols) <==> n in BuildNodes(m.symbols)
  {
    forall n
      ensures n in BuildNodes(l.symbols) <==> n in BuildNodes(m.symbols)
    {
      assert Untied(files, n.path, n.qualifiedName);
      if n in BuildNodes(m.symbols) { UntiedNode(rank, l, m, files, n); }
      if n in BuildNodes(l.symbols) { UntiedNode(rank, m, l, files, n); }
    }
  }

  // ---------------------------------------------------------------- the cut at eight

  predicate Local(path: string, ref: Reference, nodes: seq<GraphNode>) {
    exists n :: n in nodes && Fits(n, ref) && n.path == path
  }

  /** Whether a node is a linked candidate, given whether the file has one of its own. */
  function Links(path: string, ref: Reference, local: bool): GraphNode -> bool {
    (n: GraphNode) => Fits(n, ref) && (local ==> n.path == path) && OtherThan(path, ref.fromQualifiedName)(n)
  }

  lemma LocalIff(path: string, ref: Reference, nodes: seq<GraphNode>)
    ensures Local(path, ref, nodes) <==> Filter(Candidates(ref, nodes), InFile(path)) != []
  {
    var sameFile := Filter(Candidates(ref, nodes), InFile(path));
    if sameFile != [] { assert sameFile[0] in sameFile; }
    if n :| n in nodes && Fits(n, ref) && n.path == path { assert n in sameFile; }
  }

  /** The linked candidates are the nodes that fit, in node order. */
  lemma LinkedIsFilter(path: string, ref: Reference, nodes: seq<GraphNode>)
    ensures Linked(path, ref, nodes) == Filter(nodes, Links(path, ref, Local(path, ref, nodes)))
  {
    LocalIff(path, ref, nodes);
    var other := OtherThan(path, ref.fromQualifiedName);
    if Local(path, ref, nodes) {
      var both := (n: GraphNode) => Fits(n, ref) && n.path == path;
      FilterTwice(nodes, Fitting(ref), InFile(path), both);
      FilterTwice(nodes, both, other, Links(path, ref, true));
    } else {
      FilterTwice(nodes, Fitting(ref), other, Links(path, ref, false));
    }
  }

  predicate CleanCut(rank: Collation, linked: seq<GraphNode>) {
    |linked| <= MAX_TARGETS || !NodeLeq(rank, linked[MAX_TARGETS], linked[MAX_TARGETS - 1])
  }

  lemma NodeLeqTransitive(rank: Collation, a: GraphNode, b: GraphNode, c: GraphNode)
    requires NodeLeq(rank, a, b) && NodeLeq(rank, b, c)
    ensures NodeLeq(rank, a, c)
  {
  }

  function Elements<T(==)>(xs: seq<T>): set<T> { set x | x in xs }

  lemma {:induction false} DistinctCount(xs: seq<GraphNode>)
    requires DistinctOn(xs, NodeKey)
    ensures |Elements(xs)| == |xs|
    decreases |xs|
  {
    if xs != [] {
      var init, last := xs[..|xs| - 1], xs[|xs| - 1];
      DistinctCount(init);
      forall i | 0 <= i < |init|
        ensures init[i] != last
      {
        assert NodeKey(xs[i]) != NodeKey(xs[|xs| - 1]);
      }
      assert Elements(xs) == Elements(init) + {last};
    }
  }

  /** Of two orders of the same elements, neither's first `k` can be a proper part of the other's. */
  lemma CutCounts(a: seq<GraphNode>, b: seq<GraphNode>, k: nat, x: GraphNode) returns (y: GraphNode)
    requires DistinctOn(a, NodeKey) && DistinctOn(b, NodeKey) && k <= |a| && k <= |b|
    requires x in a[..k] && x !in b[..k]
    ensures y in b[..k] && y !in a[..k]
  {
    DistinctCount(a[..k]);
    DistinctCount(b[..k]);
    if Elements(b[..k]) <= Elements(a[..k]) - {x} {
      SubsetCount(Elements(b[..k]), Elements(a[..k]) - {x});
      assert false;
    }
    y :| y in Elements(b[..k]) && y !in Elements(a[..k]) - {x};
  }

  lemma {:induction false} SubsetCount<T>(a: set<T>, b: set<T>)
    requires a <= b
    ensures |a| <= |b|
  {
    assert a + (b - a) == b;
    assert |b| == |a| + |b - a|;
  }

  /** A clean cut takes the same elements of any sorted order. */
  lemma CutIsIn(rank: Collation, a: seq<GraphNode>, b: seq<GraphNode>, x: GraphNode)
    requires DistinctOn(a, NodeKey) && DistinctOn(b, NodeKey) && NodesSorted(rank, a) && NodesSorted(rank, b)
    requires (forall n :: n in a <==> n in b) && |a| > MAX_TARGETS && |b| > MAX_TARGETS
    requires CleanCut(rank, a) && x in a[..MAX_TARGETS]
    ensures x in b[..MAX_TARGETS]
  {
    var k := MAX_TARGETS;
    if x !in b[..k] {
      var y := CutCounts(a, b, k, x);
      var i :| 0 <= i < k && a[i] == x;
      var p :| 0 <= p < k && b[p] == y;
      var j := BeyondCut(a, k, y);
      var q := BeyondCut(b, k, x);
      CutClash(rank, a, b, i, j, p, q);
      assert false;
    }
  }

  lemma BeyondCut(xs: seq<GraphNode>, k: nat, x: GraphNode) returns (j: nat)
    requires k <= |xs| && x in xs && x !in xs[..k]
    ensures k <= j < |xs| && xs[j] == x
  {
    j :| 0 <= j < |xs| && xs[j] == x;
    assert forall i :: 0 <= i < k ==> xs[i] == xs[..k][i] && xs[i] in xs[..k];
  }

  lemma CutClash(rank: Collation, a: seq<GraphNode>, b: seq<GraphNode>, i: nat, j: nat, p: nat, q: nat)
    requires NodesSorted(rank, a) && NodesSorted(rank, b)
    requires i < MAX_TARGETS <= j < |a| && p < MAX_TARGETS <= q < |b| && a[i] == b[q] && a[j] == b[p]
    ensures !CleanCut(rank, a)
  {
    assert i < MAX_TARGETS - 1 ==> NodeLeq(rank, a[i], a[MAX_TARGETS - 1]);
    assert MAX_TARGETS < j ==> NodeLeq(rank, a[MAX_TARGETS], a[j]);
    assert NodeLeq(rank, b[p], b[q]);
  }

  /** The linked candidates of a reference in one listing. */
  function LinkedBy(l: Listing, r: In<Reference>): seq<GraphNode> {
    Linked(r.path, r.item, BuildNodes(l.symbols))
  }

  function TargetsBy(l: Listing, r: In<Reference>): seq<GraphNode> {
    ResolveTargets(r.path, r.item, BuildNodes(l.symbols))
  }

  /** Linked candidates keep the order of the nodes, which is by path and line. */
  lemma LinkedInOrder(rank: Collation, l: Listing, r: In<Reference>)
    requires Sorted(rank, l.symbols)
    ensures DistinctOn(LinkedBy(l, r), NodeKey) && NodesSorted(rank, LinkedBy(l, r))
  {
    var nodes := BuildNodes(l.symbols);
    LinkedIsFilter(r.path, r.item, nodes);
    var links := Links(r.path, r.item, Local(r.path, r.item, nodes));
    NodesUpToAll(l.symbols);
    NodesInOrder(rank, l.symbols, |l.symbols|);
    DistinctLaws(ModuleNodes(l.symbols) + SymbolNodes(l.symbols), NodeKey);
    var leq := (m: GraphNode, n: GraphNode) => NodeLeq(rank, m, n);
    var apart := (m: GraphNode, n: GraphNode) => NodeKey(m) != NodeKey(n);
    assert Ordered(nodes, leq) && Ordered(nodes, apart);
    FilterOrdered(nodes, links, leq);
    FilterOrdered(nodes, links, apart);
    var linked := LinkedBy(l, r);
    forall i, j | 0 <= i < j < |linked|
      ensures NodeLeq(rank, linked[i], linked[j]) && NodeKey(linked[i]) != NodeKey(linked[j])
    {
      assert leq(linked[i], linked[j]) && apart(linked[i], linked[j]);
    }
  }

  lemma SameLinked(rank: Collation, l: Listing, m: Listing, files: Files, r: In<Reference>)
    requires Lists(rank, l, files) && Lists(rank, m, files) && AllUntied(files)
    ensures forall n :: n in LinkedBy(l, r) <==> n in LinkedBy(m, r)
    ensures |LinkedBy(l, r)| == |LinkedBy(m, r)|
  {
    SameNodes(rank, l, m, files);
    var a, b := BuildNodes(l.symbols), BuildNodes(m.symbols);
    LinkedIsFilter(r.path, r.item, a);
    LinkedIsFilter(r.path, r.item, b);
    assert Local(r.path, r.item, a) <==> Local(r.path, r.item, b);
    LinkedInOrder(rank, l, r);
    LinkedInOrder(rank, m, r);
    DistinctCount(LinkedBy(l, r));
    DistinctCount(LinkedBy(m, r));
    assert Elements(LinkedBy(l, r)) == Elements(LinkedBy(m, r));
  }

  lemma TargetsKept(rank: Collation, l: Listing, m: Listing, files: Files, r: In<Reference>, n: GraphNode)
    requires Lists(rank, l, files) && Lists(rank, m, files) && AllUntied(files) && CleanCut(rank, LinkedBy(l, r))
    requires n in TargetsBy(l, r)
    ensures n in TargetsBy(m, r)
  {
    SameLinked(rank, l, m, files, r);
    LinkedInOrder(rank, l, r);
    LinkedInOrder(rank, m, r);
    if |LinkedBy(l, r)| > MAX_TARGETS {
      CutIsIn(rank, LinkedBy(l, r), LinkedBy(m, r), n);
    }
  }

  /** With no ties and a clean cut, what a reference resolves to does not depend on the listing. */
  lemma SameTargets(rank: Collation, l: Listing, m: Listing, files: Files, r: In<Reference>, n: GraphNode)
    requires Lists(rank, l, files) && Lists(rank, m, files) && AllUntied(files) && CleanCut(rank, LinkedBy(l, r))
    ensures n in TargetsBy(l, r) <==> n in TargetsBy(m, r)
  {
    if n in TargetsBy(l, r) { TargetsKept(rank, l, m, files, r, n); }
    if n in TargetsBy(m, r) && n !in TargetsBy(l, r) {
      SameLinked(rank, l, m, files, r);
      LinkedInOrder(rank, l, r);
      LinkedInOrder(rank, m, r);
      var a, b := LinkedBy(m, r), LinkedBy(l, r);
      var k := |TargetsBy(l, r)|;
      assert a[..k] == TargetsBy(m, r) && b[..k] == TargetsBy(l, r);
      var y := CutCounts(a, b, k, n);
      TargetsKept(rank, l, m, files, r, y);
      assert false;
    }
  }

  // ---------------------------------------------------------------- a tied cut

  /** `symbols[i]` is the first definition of its name. */
  predicate Heads(symbols: seq<In<Symbol>>, i: nat)
    requires i < |symbols|
  {
    && !symbols[i].item.kind.ImportKind? && symbols[i].item.qualifiedName != MODULE_SCOPE
    && forall k :: 0 <= k < i ==> !IsDefinition(symbols[k], symbols[i].path, symbols[i].item.qualifiedName)
  }

  lemma NodePosition(rank: Collation, symbols: seq<In<Symbol>>, n: GraphNode) returns (i: nat)
    requires Sorted(rank, symbols) && n in BuildNodes(symbols) && n.qualifiedName != MODULE_SCOPE
    ensures i < |symbols| && Heads(symbols, i) && SymbolNode(symbols[i]) == n
  {
    NodesUpToAll(symbols);
    NodesInOrder(rank, symbols, |symbols|);
    var j :| 0 <= j < |symbols| && !symbols[j].item.kind.ImportKind? && n == SymbolNode(symbols[j]);
    i := FirstPosition(symbols, j, n.path, n.qualifiedName);
    FirstDefinition(symbols, i);
    DistinctLaws(ModuleNodes(symbols) + SymbolNodes(symbols), NodeKey);
    SameKeySameElement(BuildNodes(symbols), NodeKey, n, SymbolNode(symbols[i]));
  }

  lemma SymbolNodesOfMoved(symbols: seq<In<Symbol>>, i: nat, j: nat)
    requires i <= j < |symbols| && !symbols[j].item.kind.ImportKind?
    ensures var a, b := SymbolNodes(symbols[..i]), SymbolNodes(symbols[i..j]);
            var x, c := [SymbolNode(symbols[j])], SymbolNodes(symbols[j + 1..]);
            SymbolNodes(symbols) == a + b + x + c && SymbolNodes(Moved(symbols, i, j)) == a + x + b + c
  {
    var x := symbols[j];
    SymbolNodesSplit(symbols, j);
    assert symbols[..j] == symbols[..i] + symbols[i..j];
    SymbolNodesConcat(symbols[..i], symbols[i..j]);
    SymbolNodesConcat(symbols[..i] + [x] + symbols[i..j], symbols[j + 1..]);
    SymbolNodesConcat(symbols[..i] + [x], symbols[i..j]);
    SymbolNodesConcat(symbols[..i], [x]);
    SymbolNodesOne(x);
  }

  lemma NoKeyBetween(symbols: seq<In<Symbol>>, i: nat, j: nat)
    requires i <= j < |symbols| && Heads(symbols, j)
    ensures NodeKey(SymbolNode(symbols[j])) !in KeysOf(ModuleNodes(symbols) + SymbolNodes(symbols[..i]), NodeKey)
    ensures NodeKey(SymbolNode(symbols[j])) !in KeysOf(SymbolNodes(symbols[i..j]), NodeKey)
  {
    NoEarlierKey(symbols, j);
    assert symbols[..j] == symbols[..i] + symbols[i..j];
    SymbolNodesConcat(symbols[..i], symbols[i..j]);
    KeysConcat(ModuleNodes(symbols) + SymbolNodes(symbols[..i]), SymbolNodes(symbols[i..j]), NodeKey);
    Associates(ModuleNodes(symbols), SymbolNodes(symbols[..i]), SymbolNodes(symbols[i..j]));
  }

  /** Moving the head of one name before the head of another moves its node before the other's. */
  lemma NodesOfMoved(rank: Collation, symbols: seq<In<Symbol>>, i: nat, j: nat)
    returns (p: seq<GraphNode>, q: seq<GraphNode>, r: seq<GraphNode>)
    requires IsCollation(rank) && Sorted(rank, symbols)
    requires i < j < |symbols| && Heads(symbols, i) && Heads(symbols, j) && Tied(symbols[i], symbols[j])
    ensures BuildNodes(symbols) == p + q + [SymbolNode(symbols[j])] + r
    ensures BuildNodes(Moved(symbols, i, j)) == p + [SymbolNode(symbols[j])] + q + r
    ensures SymbolNode(symbols[i]) in q
  {
    var modules, a, b := ModuleNodes(symbols), SymbolNodes(symbols[..i]), SymbolNodes(symbols[i..j]);
    var x, c := SymbolNode(symbols[j]), SymbolNodes(symbols[j + 1..]);
    MovedSorted(rank, symbols, i, j);
    SymbolNodesOfMoved(symbols, i, j);
    NoKeyBetween(symbols, i, j);
    p, q, r := DistinctOfMoved(modules, a, b, x, c);
    HeadIsBetween(symbols, i, j, p, q);
  }

  lemma DistinctOfMoved(front: seq<GraphNode>, a: seq<GraphNode>, b: seq<GraphNode>, x: GraphNode, c: seq<GraphNode>)
    returns (p: seq<GraphNode>, q: seq<GraphNode>, r: seq<GraphNode>)
    requires NodeKey(x) !in KeysOf(front + a, NodeKey) && NodeKey(x) !in KeysOf(b, NodeKey)
    ensures p == Distinct(front + a, NodeKey) && p + q == Distinct(front + a + b, NodeKey)
    ensures Distinct(front + (a + b + [x] + c), NodeKey) == p + q + [x] + r
    ensures Distinct(front + (a + [x] + b + c), NodeKey) == p + [x] + q + r
  {
    assert front + (a + b + [x] + c) == (front + a) + b + [x] + c;
    assert front + (a + [x] + b + c) == (front + a) + [x] + b + c;
    p, q, r := DistinctMoved(front + a, b, x, c, NodeKey);
  }

  lemma HeadIsBetween(symbols: seq<In<Symbol>>, i: nat, j: nat, p: seq<GraphNode>, q: seq<GraphNode>)
    requires i < j < |symbols| && Heads(symbols, i)
    requires p == Distinct(ModuleNodes(symbols) + SymbolNodes(symbols[..i]), NodeKey)
    requires p + q == Distinct(ModuleNodes(symbols) + SymbolNodes(symbols[..i]) + SymbolNodes(symbols[i..j]), NodeKey)
    ensures SymbolNode(symbols[i]) in q
  {
    var front, node := ModuleNodes(symbols) + SymbolNodes(symbols[..i]), SymbolNode(symbols[i]);
    NoEarlierKey(symbols, i);
    assert symbols[i..j] == [symbols[i]] + symbols[i + 1..j];
    SymbolNodesConcat([symbols[i]], symbols[i + 1..j]);
    SymbolNodesOne(symbols[i]);
    KeptAfter(front, node, SymbolNodes(symbols[i + 1..j]), p, q);
  }

  lemma KeptAfter(front: seq<GraphNode>, node: GraphNode, rest: seq<GraphNode>, p: seq<GraphNode>, q: seq<GraphNode>)
    requires NodeKey(node) !in KeysOf(front, NodeKey)
    requires p == Distinct(front, NodeKey) && p + q == Distinct(front + ([node] + rest), NodeKey)
    ensures node in q
  {
    assert front + ([node] + rest) == front + [node] + rest;
    FirstIsKept(front, node, rest, NodeKey);
    DistinctLaws(front, NodeKey);
    assert node in p ==> NodeKey(node) in KeysOf(p, NodeKey);
  }

  /** So a linked candidate moves in the same way. */
  lemma LinkedOfMoved(l: Listing, m: Listing, r: In<Reference>, p: seq<GraphNode>, q: seq<GraphNode>, x: GraphNode,
                      rest: seq<GraphNode>)
    returns (a: seq<GraphNode>, b: seq<GraphNode>, c: seq<GraphNode>)
    requires BuildNodes(l.symbols) == p + q + [x] + rest && BuildNodes(m.symbols) == p + [x] + q + rest
    requires x in LinkedBy(l, r)
    ensures LinkedBy(l, r) == a + b + [x] + c && LinkedBy(m, r) == a + [x] + b + c
    ensures forall n :: n in q && n in LinkedBy(l, r) ==> n in b
  {
    var before, after := BuildNodes(l.symbols), BuildNodes(m.symbols);
    LinkedIsFilter(r.path, r.item, before);
    LinkedIsFilter(r.path, r.item, after);
    assert forall n :: n in before <==> n in after;
    assert Local(r.path, r.item, before) <==> Local(r.path, r.item, after);
    var links := Links(r.path, r.item, Local(r.path, r.item, before));
    a, b, c := Filter(p, links), Filter(q, links), Filter(rest, links);
    FilterOne(x, links);
    FilterConcat(p + q + [x], rest, links);
    FilterConcat(p + q, [x], links);
    FilterConcat(p, q, links);
    FilterConcat(p + [x] + q, rest, links);
    FilterConcat(p + [x], q, links);
    FilterConcat(p, [x], links);
  }

  lemma FilterOne<T(!new)>(x: T, keep: T -> bool)
    ensures Filter([x], keep) == if keep(x) then [x] else []
  {
    assert [x][..0] == [];
  }

  /** Two linked candidates of equal rank are definitions on one line of one file. */
  lemma EqualNodes(rank: Collation, l: Listing, files: Files, m: GraphNode, n: GraphNode)
    requires IsCollation(rank) && Lists(rank, l, files) && m in BuildNodes(l.symbols) && n in BuildNodes(l.symbols)
    requires NodeLeq(rank, m, n) && NodeLeq(rank, n, m) && NodeKey(m) != NodeKey(n)
    ensures m.qualifiedName != MODULE_SCOPE && n.qualifiedName != MODULE_SCOPE
    ensures m.path == n.path && m.startLine == n.startLine
  {
    if m.qualifiedName == MODULE_SCOPE || n.qualifiedName == MODULE_SCOPE {
      ModuleNodeIs(rank, l, files, m);
      ModuleNodeIs(rank, l, files, n);
      assert false;
    }
  }

  /** Some listing takes the ninth candidate in place of the eighth when the two are on one line. */
  lemma NinthCanWin(rank: Collation, l: Listing, files: Files, r: In<Reference>) returns (m: Listing)
    requires IsCollation(rank) && Lists(rank, l, files) && !CleanCut(rank, LinkedBy(l, r))
    ensures Lists(rank, m, files) && m.references == l.references && LinkedBy(l, r)[MAX_TARGETS] in TargetsBy(m, r)
    ensures LinkedBy(l, r)[MAX_TARGETS] !in TargetsBy(l, r)
  {
    var i, j := TiedPositions(rank, l, files, r);
    m := l.(symbols := Moved(l.symbols, i, j));
    MovedLists(rank, l, files, i, j);
    var p, q, rest := NodesOfMoved(rank, l.symbols, i, j);
    LinkedInOrder(rank, l, r);
    var a, b, c := LinkedOfMoved(l, m, r, p, q, LinkedBy(l, r)[MAX_TARGETS], rest);
    NinthIsTaken(LinkedBy(l, r), a, b, c);
  }

  /** The definitions behind the eighth and the ninth candidate of a tied cut, in that order. */
  lemma TiedPositions(rank: Collation, l: Listing, files: Files, r: In<Reference>) returns (i: nat, j: nat)
    requires IsCollation(rank) && Lists(rank, l, files) && !CleanCut(rank, LinkedBy(l, r))
    ensures i < j < |l.symbols| && Heads(l.symbols, i) && Heads(l.symbols, j) && Tied(l.symbols[i], l.symbols[j])
    ensures SymbolNode(l.symbols[i]) == LinkedBy(l, r)[MAX_TARGETS - 1]
            && SymbolNode(l.symbols[j]) == LinkedBy(l, r)[MAX_TARGETS]
  {
    var eighth, ninth := LinkedBy(l, r)[MAX_TARGETS - 1], LinkedBy(l, r)[MAX_TARGETS];
    LinkedInOrder(rank, l, r);
    LinkedAreNodes(l, r, eighth);
    LinkedAreNodes(l, r, ninth);
    EqualNodes(rank, l, files, eighth, ninth);
    i := NodePosition(rank, l.symbols, eighth);
    j := NodePosition(rank, l.symbols, ninth);
    if j < i { NotBefore(rank, l, r, j, i); }
  }

  /** The head of the ninth candidate is not listed before that of the eighth. */
  lemma NotBefore(rank: Collation, l: Listing, r: In<Reference>, j: nat, i: nat)
    requires IsCollation(rank) && Sorted(rank, l.symbols) && j < i < |l.symbols| && |LinkedBy(l, r)| > MAX_TARGETS
    requires Heads(l.symbols, i) && Heads(l.symbols, j) && Tied(l.symbols[j], l.symbols[i])
    requires SymbolNode(l.symbols[i]) == LinkedBy(l, r)[MAX_TARGETS - 1]
    ensures SymbolNode(l.symbols[j]) != LinkedBy(l, r)[MAX_TARGETS]
  {
    var p, q, rest := NodesOfMoved(rank, l.symbols, j, i);
    var other := l.(symbols := Moved(l.symbols, j, i));
    LinkedInOrder(rank, l, r);
    var a, b, c := LinkedOfMoved(l, other, r, p, q, SymbolNode(l.symbols[i]), rest);
    WrongOrder(LinkedBy(l, r), a, b, c);
  }

  lemma LinkedAreNodes(l: Listing, r: In<Reference>, n: GraphNode)
    requires n in LinkedBy(l, r)
    ensures n in BuildNodes(l.symbols)
  {
    LinkedIsFilter(r.path, r.item, BuildNodes(l.symbols));
  }

  lemma WrongOrder(linked: seq<GraphNode>, a: seq<GraphNode>, b: seq<GraphNode>, c: seq<GraphNode>)
    requires DistinctOn(linked, NodeKey) && |linked| > MAX_TARGETS
    requires linked == a + b + [linked[MAX_TARGETS - 1]] + c
    ensures linked[MAX_TARGETS] !in b
  {
    var at := |a + b|;
    assert linked[at] == linked[MAX_TARGETS - 1];
    assert at == MAX_TARGETS - 1;
    forall k | 0 <= k < |b|
      ensures b[k] != linked[MAX_TARGETS]
    {
      assert b[k] == linked[|a| + k];
    }
  }

  lemma NinthIsTaken(linked: seq<GraphNode>, a: seq<GraphNode>, b: seq<GraphNode>, c: seq<GraphNode>)
    requires DistinctOn(linked, NodeKey) && |linked| > MAX_TARGETS
    requires linked == a + b + [linked[MAX_TARGETS]] + c && linked[MAX_TARGETS - 1] in b
    ensures linked[MAX_TARGETS] in Take(a + [linked[MAX_TARGETS]] + b + c, MAX_TARGETS)
    ensures linked[MAX_TARGETS] !in Take(linked, MAX_TARGETS)
  {
    var ninth := linked[MAX_TARGETS];
    assert linked[|a + b|] == ninth;
    assert |a + b| == MAX_TARGETS;
    assert (a + [ninth] + b + c)[|a|] == ninth && |a| < MAX_TARGETS;
    assert Take(a + [ninth] + b + c, MAX_TARGETS)[|a|] == ninth;
    forall k | 0 <= k < MAX_TARGETS
      ensures linked[k] != ninth
    {
      assert NodeKey(linked[k]) != NodeKey(linked[MAX_TARGETS]);
    }
  }

  /**
   * Where no name is tied, a reference resolves to the same nodes in every listing exactly when it has at
   * most eight candidates or the eighth and the ninth are not definitions on one line of one file.
   */
  lemma TargetsDeterminedIff(rank: Collation, l: Listing, files: Files, r: In<Reference>)
    requires IsCollation(rank) && Lists(rank, l, files) && AllUntied(files)
    ensures CleanCut(rank, LinkedBy(l, r)) <==>
            forall m, n :: Lists(rank, m, files) ==> (n in TargetsBy(m, r) <==> n in TargetsBy(l, r))
  {
    if CleanCut(rank, LinkedBy(l, r)) {
      forall m, n | Lists(rank, m, files)
        ensures n in TargetsBy(m, r) <==> n in TargetsBy(l, r)
      {
        SameTargets(rank, l, m, files, r, n);
      }
    } else {
      var m := NinthCanWin(rank, l, files, r);
    }
  }

  // ---------------------------------------------------------------- edges

  function EdgesBy(l: Listing): seq<GraphEdge> { GraphOf(l).edges }

  function DefinesBy(l: Listing): seq<GraphEdge> {
    DefinesEdges(l.symbols, KeysOf(BuildNodes(l.symbols), NodeKey))
  }

  lemma RefEdgesOnlyLink(references: seq<In<Reference>>, nodes: seq<GraphNode>, e: GraphEdge) returns (r: In<Reference>)
    requires e in BuildEdges(references, nodes)
    ensures r in references && e in EdgesOfRef(r, nodes) && e.kind != Defines
    decreases |references|
  {
    var init, last := references[..|references| - 1], references[|references| - 1];
    if e in EdgesOfRef(last, nodes) {
      r := last;
      TargetsLaws(r.path, r.item, nodes);
      var targets := ResolveTargets(r.path, r.item, nodes);
      var i :| 0 <= i < |targets| && e == RefEdge(r, targets[i]);
      assert targets[i] in targets;
    } else {
      r := RefEdgesOnlyLink(init, nodes, e);
    }
  }

  /** A reference whose scope has a node and one of whose targets gives this edge key. */
  ghost predicate Yields(l: Listing, r: In<Reference>, key: (Key, Key, EdgeKind)) {
    && r in l.references && (r.path, r.item.fromQualifiedName) in KeysOf(BuildNodes(l.symbols), NodeKey)
    && exists n :: n in TargetsBy(l, r) && EdgeKey(RefEdge(r, n)) == key
  }

  /** An edge that is no definition is some reference's, at its line. */
  lemma RefEdgeSource(l: Listing, e: GraphEdge) returns (r: In<Reference>)
    requires e in EdgesBy(l) && e.kind != Defines
    ensures Yields(l, r, EdgeKey(e)) && e.line == Some(r.item.line)
  {
    var nodes := BuildNodes(l.symbols);
    DistinctLaws(DefinesBy(l) + BuildEdges(l.references, nodes), EdgeKey);
    DefinesEdgesExact(l.symbols, KeysOf(nodes, NodeKey));
    r := RefEdgesOnlyLink(l.references, nodes, e);
    var targets := TargetsBy(l, r);
    var i :| 0 <= i < |targets| && e == RefEdge(r, targets[i]);
    assert targets[i] in targets;
  }

  /** And each reference yields an edge of its key. */
  lemma YieldsEdge(l: Listing, r: In<Reference>, key: (Key, Key, EdgeKind)) returns (e: GraphEdge)
    requires Yields(l, r, key)
    ensures e in EdgesOfRef(r, BuildNodes(l.symbols)) && EdgeKey(e) == key
    ensures key in KeysOf(EdgesBy(l), EdgeKey)
  {
    var nodes, targets := BuildNodes(l.symbols), TargetsBy(l, r);
    var n :| n in targets && EdgeKey(RefEdge(r, n)) == key;
    var i :| 0 <= i < |targets| && targets[i] == n;
    e := RefEdge(r, n);
    assert EdgesOfRef(r, nodes)[i] == e;
    EdgeOfMember(l.references, nodes, r, e);
    DistinctLaws(DefinesBy(l) + BuildEdges(l.references, nodes), EdgeKey);
    assert e in DefinesBy(l) + BuildEdges(l.references, nodes);
  }

  ghost predicate AllClean(rank: Collation, l: Listing) {
    forall r :: r in l.references ==> CleanCut(rank, LinkedBy(l, r))
  }

  lemma SameYields(rank: Collation, l: Listing, m: Listing, files: Files, r: In<Reference>, key: (Key, Key, EdgeKind))
    requires Lists(rank, l, files) && Lists(rank, m, files) && AllUntied(files) && AllClean(rank, l)
    ensures Yields(l, r, key) <==> Yields(m, r, key)
  {
    SameSymbols(rank, l, m, files);
    SameNodeKeys(rank, l, m, files);
    if r in l.references {
      forall n
        ensures n in TargetsBy(l, r) <==> n in TargetsBy(m, r)
      {
        SameTargets(rank, l, m, files, r, n);
      }
    }
  }

  // ---------------------------------------------------------------- edges from modules to definitions

  /** An edge from a module to a definition carries the name's first line. */
  lemma {:induction false} DefinesAreLeast(rank: Collation, symbols: seq<In<Symbol>>, keys: set<Key>, k: nat, i: nat)
    returns (e: GraphEdge)
    requires i < k <= |symbols| && Sorted(rank, symbols)
    requires !symbols[i].item.kind.ImportKind? && (symbols[i].path, MODULE_SCOPE) in keys
    ensures e in Distinct(DefinesEdges(symbols[..k], keys), EdgeKey) && EdgeKey(e) == EdgeKey(DefinesEdge(symbols[i]))
    ensures e.line.Some? && e.line.value <= symbols[i].item.startLine
    decreases k
  {
    assert symbols[..k][..k - 1] == symbols[..k - 1];
    var before := DefinesEdges(symbols[..k - 1], keys);
    if i < k - 1 {
      e := DefinesAreLeast(rank, symbols, keys, k - 1, i);
      DistinctConcat(before, DefinesEdges(symbols[..k], keys)[|before|..], EdgeKey);
    } else {
      e := DefinesLeastHere(rank, symbols, keys, i, before);
    }
  }

  lemma DefinesLeastHere(rank: Collation, symbols: seq<In<Symbol>>, keys: set<Key>, i: nat, before: seq<GraphEdge>)
    returns (e: GraphEdge)
    requires i < |symbols| && Sorted(rank, symbols) && before == DefinesEdges(symbols[..i], keys)
    ensures e in Distinct(before + [DefinesEdge(symbols[i])], EdgeKey) && EdgeKey(e) == EdgeKey(DefinesEdge(symbols[i]))
    ensures e.line.Some? && e.line.value <= symbols[i].item.startLine
  {
    var last := DefinesEdge(symbols[i]);
    assert (before + [last])[..|before|] == before;
    DistinctLaws(before, EdgeKey);
    if EdgeKey(last) in KeysOf(Distinct(before, EdgeKey), EdgeKey) {
      e :| e in Distinct(before, EdgeKey) && EdgeKey(e) == EdgeKey(last);
      DefinesEdgesExact(symbols[..i], keys);
      var s :| s in symbols[..i] && !s.item.kind.ImportKind? && e == DefinesEdge(s);
      var j :| 0 <= j < i && symbols[j] == s;
      assert Precedes(rank, symbols[j], symbols[i]);
    } else {
      e := last;
    }
  }

  lemma DefinesComeFirst(l: Listing, e: GraphEdge)
    ensures e in EdgesBy(l) && e.kind == Defines <==> e in Distinct(DefinesBy(l), EdgeKey)
  {
    var links := BuildEdges(l.references, BuildNodes(l.symbols));
    DistinctConcat(DefinesBy(l), links, EdgeKey);
    DistinctFromMembers(KeysOf(DefinesBy(l), EdgeKey), links, EdgeKey);
    if e in links { var r := RefEdgesOnlyLink(l.references, BuildNodes(l.symbols), e); }
    DistinctLaws(DefinesBy(l), EdgeKey);
    DefinesEdgesExact(l.symbols, KeysOf(BuildNodes(l.symbols), NodeKey));
  }

  lemma {:induction false} DistinctFromMembers<T(!new), K>(seen: set<K>, xs: seq<T>, key: T -> K)
    ensures forall x :: x in DistinctFrom(seen, xs, key) ==> x in xs
    decreases |xs|
  {
    if xs != [] { DistinctFromMembers(seen, xs[..|xs| - 1], key); }
  }

  lemma DefinesIsLeast(rank: Collation, l: Listing, files: Files, e: GraphEdge) returns (s: In<Symbol>)
    requires Lists(rank, l, files) && e in EdgesBy(l) && e.kind == Defines
    ensures Least(s, e.srcPath, e.dstName, files) && e == DefinesEdge(s)
  {
    var symbols, keys := l.symbols, KeysOf(BuildNodes(l.symbols), NodeKey);
    DefinesComeFirst(l, e);
    DistinctLaws(DefinesBy(l), EdgeKey);
    DefinesEdgesExact(symbols, keys);
    s :| s in symbols && !s.item.kind.ImportKind? && e == DefinesEdge(s);
    ListedSymbols(rank, l, files, s);
    NodeKeys(symbols, s.path, MODULE_SCOPE);
    forall o | o in files[s.path].symbols && IsDefinition(In(s.path, o), s.path, e.dstName)
      ensures s.item.startLine <= o.startLine
    {
      ListedSymbols(rank, l, files, In(s.path, o));
      var j :| 0 <= j < |symbols| && symbols[j] == In(s.path, o);
      assert symbols[..|symbols|] == symbols;
      var first := DefinesAreLeast(rank, symbols, keys, |symbols|, j);
      SameKeySameElement(Distinct(DefinesBy(l), EdgeKey), EdgeKey, first, e);
    }
  }

  lemma LeastAreOnOneLine(a: In<Symbol>, b: In<Symbol>, path: string, name: string, files: Files)
    requires Least(a, path, name, files) && Least(b, path, name, files)
    ensures DefinesEdge(a) == DefinesEdge(b)
  {
    assert a == In(path, a.item) && b == In(path, b.item);
  }

  /** Every listing gives the same edges from modules to definitions, lines included. */
  lemma DefinesEdgeIsDetermined(rank: Collation, l: Listing, m: Listing, files: Files, e: GraphEdge)
    requires Lists(rank, l, files) && Lists(rank, m, files) && e in EdgesBy(l) && e.kind == Defines
    ensures e in EdgesBy(m)
  {
    var s := DefinesIsLeast(rank, l, files, e);
    ListedSymbols(rank, m, files, s);
    DefinitionsAreDefined(m.symbols, m.references, s);
    var o :| o in EdgesBy(m) && EdgeKey(o) == EdgeKey(e);
    var t := DefinesIsLeast(rank, m, files, o);
    LeastAreOnOneLine(s, t, e.srcPath, e.dstName, files);
  }

  // ---------------------------------------------------------------- edges from references

  lemma EdgeKeyKept(rank: Collation, l: Listing, m: Listing, files: Files, e: GraphEdge)
    requires Lists(rank, l, files) && Lists(rank, m, files) && AllUntied(files) && AllClean(rank, l)
    requires e in EdgesBy(l)
    ensures EdgeKey(e) in KeysOf(EdgesBy(m), EdgeKey)
  {
    if e.kind == Defines {
      DefinesEdgeIsDetermined(rank, l, m, files, e);
    } else {
      var r := RefEdgeSource(l, e);
      SameYields(rank, l, m, files, r, EdgeKey(e));
      var o := YieldsEdge(m, r, EdgeKey(e));
    }
  }

  /** With no tied name and no tied cut, every listing gives the same edge keys. */
  lemma SameEdgeKeys(rank: Collation, l: Listing, m: Listing, files: Files)
    requires Lists(rank, l, files) && Lists(rank, m, files) && AllUntied(files) && AllClean(rank, l)
    ensures KeysOf(EdgesBy(l), EdgeKey) == KeysOf(EdgesBy(m), EdgeKey)
  {
    forall e | e in EdgesBy(l)
      ensures EdgeKey(e) in KeysOf(EdgesBy(m), EdgeKey)
    {
      EdgeKeyKept(rank, l, m, files, e);
    }
    forall e | e in EdgesBy(m)
      ensures EdgeKey(e) in KeysOf(EdgesBy(l), EdgeKey)
    {
      if e.kind == Defines {
        DefinesEdgeIsDetermined(rank, m, l, files, e);
      } else {
        var r := RefEdgeSource(m, e);
        SameYields(rank, l, m, files, r, EdgeKey(e));
        var o := YieldsEdge(l, r, EdgeKey(e));
      }
    }
  }

  /** Some listing has a given reference first. */
  lemma AnyReferenceCanBeFirst(rank: Collation, l: Listing, files: Files, r: In<Reference>) returns (m: Listing)
    requires Lists(rank, l, files) && r in l.references
    ensures Lists(rank, m, files) && m.symbols == l.symbols && m.references != [] && m.references[0] == r
  {
    var j :| 0 <= j < |l.references| && l.references[j] == r;
    MovedCounts(l.references, 0, j);
    m := l.(references := Moved(l.references, 0, j));
  }

  lemma {:induction false} BuildEdgesCollects(references: seq<In<Reference>>, nodes: seq<GraphNode>,
                                              f: In<Reference> -> seq<GraphEdge>)
    requires forall r :: f(r) == EdgesOfRef(r, nodes)
    ensures BuildEdges(references, nodes) == Collect(f, references)
    decreases |references|
  {
    if references != [] { BuildEdgesCollects(references[..|references| - 1], nodes, f); }
  }

  lemma BuildEdgesFirst(r: In<Reference>, b: seq<In<Reference>>, nodes: seq<GraphNode>)
    ensures BuildEdges([r] + b, nodes) == EdgesOfRef(r, nodes) + BuildEdges(b, nodes)
  {
    var f := (x: In<Reference>) => EdgesOfRef(x, nodes);
    BuildEdgesCollects([r] + b, nodes, f);
    BuildEdgesCollects(b, nodes, f);
    CollectConcat(f, [r], b);
    CollectOne(f, r);
  }

  lemma FirstEdges(m: Listing) returns (first: seq<GraphEdge>, rest: seq<GraphEdge>)
    requires m.references != []
    ensures first == EdgesOfRef(m.references[0], BuildNodes(m.symbols))
    ensures EdgesBy(m) == Distinct(DefinesBy(m) + first + rest, EdgeKey)
  {
    var nodes, r := BuildNodes(m.symbols), m.references[0];
    first, rest := EdgesOfRef(r, nodes), BuildEdges(m.references[1..], nodes);
    assert m.references == [r] + m.references[1..];
    BuildEdgesFirst(r, m.references[1..], nodes);
    Associates(DefinesBy(m), first, rest);
  }

  /** The edges of the first reference win over those of later ones. */
  lemma FirstReferenceWins(m: Listing, r: In<Reference>, key: (Key, Key, EdgeKind), e: GraphEdge)
    requires m.references != [] && m.references[0] == r && Yields(m, r, key) && key.2 != Defines
    requires e in EdgesBy(m) && EdgeKey(e) == key
    ensures e.line == Some(r.item.line)
  {
    var first, rest := FirstEdges(m);
    var o := YieldsEdge(m, r, key);
    NoDefinesKey(m, key);
    var x := EarlierPartWins(DefinesBy(m), first, rest, o);
    DistinctLaws(DefinesBy(m) + first + rest, EdgeKey);
    SameKeySameElement(EdgesBy(m), EdgeKey, x, e);
  }

  lemma NoDefinesKey(m: Listing, key: (Key, Key, EdgeKind))
    requires key.2 != Defines
    ensures key !in KeysOf(DefinesBy(m), EdgeKey)
  {
    DefinesEdgesExact(m.symbols, KeysOf(BuildNodes(m.symbols), NodeKey));
  }

  lemma EarlierPartWins(a: seq<GraphEdge>, b: seq<GraphEdge>, c: seq<GraphEdge>, o: GraphEdge) returns (x: GraphEdge)
    requires o in b && EdgeKey(o) !in KeysOf(a, EdgeKey)
    ensures x in b && x in Distinct(a + b + c, EdgeKey) && EdgeKey(x) == EdgeKey(o)
  {
    DistinctLaws(a + b, EdgeKey);
    KeysConcat(a, b, EdgeKey);
    assert EdgeKey(o) in KeysOf(b, EdgeKey);
    x :| x in Distinct(a + b, EdgeKey) && EdgeKey(x) == EdgeKey(o);
    DistinctConcat(a + b, c, EdgeKey);
  }

  /** References that yield one edge key agree on its line. */
  ghost predicate OneLine(l: Listing, e: GraphEdge) {
    forall r :: Yields(l, r, EdgeKey(e)) ==> Some(r.item.line) == e.line
  }

  lemma OneLineKeepsEdge(rank: Collation, l: Listing, m: Listing, files: Files, e: GraphEdge)
    requires Lists(rank, l, files) && Lists(rank, m, files) && AllUntied(files) && AllClean(rank, l)
    requires e in EdgesBy(l) && e.kind != Defines && OneLine(l, e)
    ensures e in EdgesBy(m)
  {
    EdgeKeyKept(rank, l, m, files, e);
    var o :| o in EdgesBy(m) && EdgeKey(o) == EdgeKey(e);
    var r := RefEdgeSource(m, o);
    SameYields(rank, l, m, files, r, EdgeKey(e));
  }

  /** A second line for an edge's key is the line some listing gives it. */
  lemma SecondLineCanWin(rank: Collation, l: Listing, files: Files, e: GraphEdge, r: In<Reference>) returns (m: Listing)
    requires Lists(rank, l, files) && e in EdgesBy(l) && e.kind != Defines
    requires Yields(l, r, EdgeKey(e)) && Some(r.item.line) != e.line
    ensures Lists(rank, m, files) && e !in EdgesBy(m)
  {
    m := AnyReferenceCanBeFirst(rank, l, files, r);
    SameSymbols(rank, l, m, files);
    assert Yields(m, r, EdgeKey(e));
    if e in EdgesBy(m) { FirstReferenceWins(m, r, EdgeKey(e), e); }
  }

  /**
   * Where no name is tied and no cut is, an edge of one listing's graph is in every listing's graph exactly
   * when all references that yield its key are on its line: which line an edge shows is otherwise whatever
   * order the database returns the references in.
   */
  lemma RefEdgeDeterminedIff(rank: Collation, l: Listing, files: Files, e: GraphEdge)
    requires Lists(rank, l, files) && AllUntied(files) && AllClean(rank, l) && e in EdgesBy(l) && e.kind != Defines
    ensures OneLine(l, e) <==> forall m :: Lists(rank, m, files) ==> e in EdgesBy(m)
  {
    if OneLine(l, e) {
      forall m | Lists(rank, m, files)
        ensures e in EdgesBy(m)
      {
        OneLineKeepsEdge(rank, l, m, files, e);
      }
    } else {
      var r :| Yields(l, r, EdgeKey(e)) && Some(r.item.line) != e.line;
      var m := SecondLineCanWin(rank, l, files, e, r);
    }
  }

  // ---------------------------------------------------------------- a line no listing settles

  function ExampleFunction(name: string, line: nat): In<Symbol> {
    In("a.py", Symbol(FunctionKind, name, name, line, line, 0, 0))
  }

  function ExampleCall(line: nat): In<Reference> { In("a.py", Reference(Calls, "f", "g", line)) }

  /** One file in which `f` calls `g` on lines 2 and 3. */
  function ExampleFiles(): Files {
    map["a.py" := FileRow(0, 0, [ExampleFunction("f", 1).item, ExampleFunction("g", 5).item], [],
                          [ExampleCall(2).item, ExampleCall(3).item])]
  }

  function ExampleListing(first: nat, second: nat): Listing {
    Listing([ExampleFunction("f", 1), ExampleFunction("g", 5)], [ExampleCall(first), ExampleCall(second)])
  }

  lemma PairCounts<T>(path: string, a: T, b: T, x: In<T>)
    ensures multiset([In(path, a), In(path, b)])[x] == if x.path == path then multiset([a, b])[x.item] else 0
    ensures multiset([a, b]) == multiset([b, a])
  {
  }

  lemma OneFileStored<T>(path: string, row: FileRow, items: FileRow -> seq<T>, a: T, b: T, x: In<T>)
    requires items(row) == [a, b] || items(row) == [b, a]
    ensures multiset([In(path, a), In(path, b)])[x] == Stored(x.path, x.item, map[path := row], items)
  {
    PairCounts(path, a, b, x);
  }

  lemma OneFileLists(rank: Collation, path: string, row: FileRow, a: Symbol, b: Symbol, x: Reference, y: Reference)
    requires SymbolsOf(row) == [a, b] && a.startLine <= b.startLine
    requires ReferencesOf(row) == [x, y] || ReferencesOf(row) == [y, x]
    ensures Lists(rank, Listing([In(path, a), In(path, b)], [In(path, x), In(path, y)]), map[path := row])
  {
    var symbols, references, files := [In(path, a), In(path, b)], [In(path, x), In(path, y)], map[path := row];
    forall s: In<Symbol>
      ensures multiset(symbols)[s] == Stored(s.path, s.item, files, SymbolsOf)
    {
      OneFileStored(path, row, SymbolsOf, a, b, s);
    }
    forall r: In<Reference>
      ensures multiset(references)[r] == Stored(r.path, r.item, files, ReferencesOf)
    {
      OneFileStored(path, row, ReferencesOf, x, y, r);
    }
    assert Sorted(rank, symbols);
  }

  lemma ExampleLists(rank: Collation, first: nat, second: nat)
    requires (first == 2 && second == 3) || (first == 3 && second == 2)
    ensures Lists(rank, ExampleListing(first, second), ExampleFiles())
  {
    var path := "a.py";
    OneFileLists(rank, path, ExampleFiles()[path], ExampleFunction("f", 1).item, ExampleFunction("g", 5).item,
                 ExampleCall(first).item, ExampleCall(second).item);
  }

  /** Among few nodes, one of the same file that fits is a target. */
  lemma TargetOfFew(l: Listing, r: In<Reference>, n: GraphNode)
    requires n in BuildNodes(l.symbols) && |BuildNodes(l.symbols)| <= MAX_TARGETS
    requires Fits(n, r.item) && n.path == r.path && n.qualifiedName != r.item.fromQualifiedName
    ensures n in TargetsBy(l, r)
  {
    var nodes := BuildNodes(l.symbols);
    LinkedIsFilter(r.path, r.item, nodes);
    assert n in Filter(nodes, Links(r.path, r.item, Local(r.path, r.item, nodes)));
  }

  lemma ExampleNodes(first: nat, second: nat)
    ensures var nodes := BuildNodes(ExampleListing(first, second).symbols);
            && |nodes| <= MAX_TARGETS && SymbolNode(ExampleFunction("g", 5)) in nodes
            && ("a.py", "f") in KeysOf(nodes, NodeKey)
  {
    var symbols := ExampleListing(first, second).symbols;
    DistinctShorter(ModuleNodes(symbols) + SymbolNodes(symbols), NodeKey);
    SymbolNodesShorter(symbols);
    assert Names(symbols[0], "a.py", "f");
    NodeKeys(symbols, "a.py", "f");
    FirstDefinition(symbols, 1);
  }

  lemma ExampleYields(first: nat, second: nat)
    ensures Yields(ExampleListing(first, second), ExampleCall(first), (("a.py", "f"), ("a.py", "g"), Calls))
  {
    var l, r, n := ExampleListing(first, second), ExampleCall(first), SymbolNode(ExampleFunction("g", 5));
    ExampleNodes(first, second);
    TargetOfFew(l, r, n);
    assert l.references[0] == r;
    assert EdgeKey(RefEdge(r, n)) == (("a.py", "f"), ("a.py", "g"), Calls);
  }

  lemma {:induction false} DistinctShorter<T(!new), K>(xs: seq<T>, key: T -> K)
    ensures |Distinct(xs, key)| <= |xs|
    decreases |xs|
  {
    if xs != [] { DistinctShorter(xs[..|xs| - 1], key); }
  }

  lemma {:induction false} SymbolNodesShorter(symbols: seq<In<Symbol>>)
    ensures |SymbolNodes(symbols)| <= |symbols|
    decreases |symbols|
  {
    if symbols != [] { SymbolNodesShorter(symbols[..|symbols| - 1]); }
  }

  /** Two orders the database may return the same two references in give the one edge two lines. */
  lemma EdgeLineIsNotDetermined(rank: Collation, first: nat, second: nat)
    requires (first == 2 && second == 3) || (first == 3 && second == 2)
    ensures Lists(rank, ExampleListing(first, second), ExampleFiles())
    ensures var edges := EdgesBy(ExampleListing(first, second));
            forall line :: GraphEdge("a.py", "f", "a.py", "g", Calls, line) in edges <==> line == Some(first)
  {
    var l, key := ExampleListing(first, second), (("a.py", "f"), ("a.py", "g"), Calls);
    ExampleLists(rank, first, second);
    ExampleYields(first, second);
    var o := YieldsEdge(l, l.references[0], key);
    var e :| e in EdgesBy(l) && EdgeKey(e) == key;
    forall line | GraphEdge("a.py", "f", "a.py", "g", Calls, line) in EdgesBy(l)
      ensures line == Some(first)
    {
      FirstReferenceWins(l, l.references[0], key, GraphEdge("a.py", "f", "a.py", "g", Calls, line));
    }
    FirstReferenceWins(l, l.references[0], key, e);
  }
}
