/**
 * The recursive graph queries (codeintel/infrastructure/graph_store.py): a working table
 * of simple walks, of which the shallowest row per node is kept, against distances.
 */
module GraphTraversal {
  import opened Common
  import opened CodeModel

  datatype Edge = Edge(src: nat, dst: nat, kind: EdgeKind, line: Option<nat>)

  datatype Query = Callees | Callers | Impact | Neighborhood

  predicate Follows(q: Query, kind: EdgeKind) {
    match q
    case Callees => kind == Calls
    case Callers => kind == Calls
    case Impact => kind == Calls || kind == Inherits
    case Neighborhood => true
  }

  /** The node an edge leads to from `u` under a query, if it is followed at all. */
  function Hop(q: Query, e: Edge, u: nat): Option<nat> {
    if !Follows(q, e.kind) then None
    else
      match q
      case Callees => if e.src == u then Some(e.dst) else None
      case Callers => if e.dst == u then Some(e.src) else None
      case Impact => if e.dst == u then Some(e.src) else None
      case Neighborhood => if e.src == u then Some(e.dst) else if e.dst == u then Some(e.src) else None
  }

  /** The `outgoing` column: true when the edge points from the predecessor to the node. */
  function Outgoing(q: Query, e: Edge, via: nat): bool {
    match q
    case Callees => true
    case Callers => false
    case Impact => false
    case Neighborhood => e.src == via
  }

  // ---------------------------------------------------------------- specification: distances

  predicate Adjacent(q: Query, edges: set<Edge>, u: nat, v: nat) {
    exists e :: e in edges && Hop(q, e, u) == Some(v)
  }

  /** `v` is at most `k` hops from the seed. */
  ghost predicate Within(q: Query, edges: set<Edge>, seed: nat, k: nat, v: nat)
    decreases k, 0
  {
    if k == 0 then v == seed
    else Within(q, edges, seed, k - 1, v) || Beyond(q, edges, seed, k - 1, v)
  }

  /** `v` is one hop past something at most `k` hops away. */
  ghost predicate Beyond(q: Query, edges: set<Edge>, seed: nat, k: nat, v: nat)
    decreases k, 1
  {
    exists u :: Within(q, edges, seed, k, u) && Adjacent(q, edges, u, v)
  }

  /** `v` is exactly `k` hops away: reachable in `k`, and not in fewer. */
  ghost predicate AtDistance(q: Query, edges: set<Edge>, seed: nat, v: nat, k: nat) {
    Within(q, edges, seed, k, v) && (k > 0 ==> !Within(q, edges, seed, k - 1, v))
  }

  lemma {:induction false} WithinMonotone(q: Query, edges: set<Edge>, seed: nat, j: nat, k: nat, v: nat)
    requires j <= k
    ensures Within(q, edges, seed, j, v) ==> Within(q, edges, seed, k, v)
    decreases k
  {
    if j < k { WithinMonotone(q, edges, seed, j, k - 1, v); }
  }

  lemma DistanceUnique(q: Query, edges: set<Edge>, seed: nat, v: nat, j: nat, k: nat)
    requires AtDistance(q, edges, seed, v, j) && AtDistance(q, edges, seed, v, k)
    ensures j == k
  {
    if j < k { WithinMonotone(q, edges, seed, j, k - 1, v); }
    if k < j { WithinMonotone(q, edges, seed, k, j - 1, v); }
  }

  lemma {:induction false} HasDistance(q: Query, edges: set<Edge>, seed: nat, v: nat, k: nat) returns (d: nat)
    requires Within(q, edges, seed, k, v)
    ensures d <= k && AtDistance(q, edges, seed, v, d)
    decreases k
  {
    if k > 0 && Within(q, edges, seed, k - 1, v) {
      d := HasDistance(q, edges, seed, v, k - 1);
    } else {
      d := k;
    }
  }

  /** A node at distance k + 1 has a neighbour at distance k. */
  lemma Nearer(q: Query, edges: set<Edge>, seed: nat, v: nat, k: nat) returns (u: nat)
    requires AtDistance(q, edges, seed, v, k + 1)
    ensures AtDistance(q, edges, seed, u, k) && Adjacent(q, edges, u, v)
  {
    assert Beyond(q, edges, seed, k, v);
    u :| Within(q, edges, seed, k, u) && Adjacent(q, edges, u, v);
    if k > 0 && Within(q, edges, seed, k - 1, u) { OneMoreHop(q, edges, seed, k - 1, u, v); }
  }

  lemma OneMoreHop(q: Query, edges: set<Edge>, seed: nat, k: nat, u: nat, v: nat)
    requires Within(q, edges, seed, k, u) && Adjacent(q, edges, u, v)
    ensures Within(q, edges, seed, k + 1, v)
  {
    assert Beyond(q, edges, seed, k, v);
  }

  // ---------------------------------------------------------------- the working table

  /** A row of the recursive table; `visited` is the walk from the seed to the node. */
  datatype Row = Row(node: nat, via: nat, edge: Edge, depth: nat, visited: seq<nat>)

  function BaseRow(q: Query, e: Edge, seed: nat): Row
    requires Hop(q, e, seed).Some?
  {
    Row(Hop(q, e, seed).value, seed, e, 1, [seed, Hop(q, e, seed).value])
  }

  predicate CanExtend(q: Query, w: Row, e: Edge) {
    Hop(q, e, w.node).Some? && Hop(q, e, w.node).value !in w.visited
  }

  function Extend(q: Query, w: Row, e: Edge): Row
    requires CanExtend(q, w, e)
  {
    var v := Hop(q, e, w.node).value;
    Row(v, w.node, e, w.depth + 1, w.visited + [v])
  }

  function BaseRows(q: Query, edges: set<Edge>, seed: nat): set<Row> {
    set e | e in edges && Hop(q, e, seed).Some? :: BaseRow(q, e, seed)
  }

  function NextRows(q: Query, edges: set<Edge>, rows: set<Row>): set<Row> {
    set w, e | w in rows && e in edges && CanExtend(q, w, e) :: Extend(q, w, e)
  }

  /** The rows of depth k + 1. */
  function Level(q: Query, edges: set<Edge>, seed: nat, k: nat): set<Row> {
    if k == 0 then BaseRows(q, edges, seed) else NextRows(q, edges, Level(q, edges, seed, k - 1))
  }

  function Table(q: Query, edges: set<Edge>, seed: nat, k: nat): set<Row> {
    if k == 0 then Level(q, edges, seed, 0) else Table(q, edges, seed, k - 1) + Level(q, edges, seed, k)
  }

  /** Every row is a walk: at its depth, one stored hop past its predecessor, from the seed. */
  lemma {:induction false} RowsAreWalks(q: Query, edges: set<Edge>, seed: nat, k: nat, w: Row)
    requires w in Level(q, edges, seed, k)
    ensures w.depth == k + 1 && |w.visited| == k + 2 && w.visited[0] == seed && w.visited[k + 1] == w.node
    ensures w.edge in edges && Hop(q, w.edge, w.via) == Some(w.node) && w.via == w.visited[k]
    ensures Within(q, edges, seed, k, w.via) && Within(q, edges, seed, k + 1, w.node)
    ensures k > 0 ==> w.node != seed
    decreases k
  {
    if k == 0 {
      var e :| e in edges && Hop(q, e, seed).Some? && w == BaseRow(q, e, seed);
      assert Adjacent(q, edges, seed, w.node);
    } else {
      var p, e :| p in Level(q, edges, seed, k - 1) && e in edges && CanExtend(q, p, e) && w == Extend(q, p, e);
      RowsAreWalks(q, edges, seed, k - 1, p);
      assert Adjacent(q, edges, w.via, w.node);
      assert p.visited[0] in p.visited;
    }
  }

  /** A row whose walk is a shortest one at every step. */
  ghost predicate Geodesic(q: Query, edges: set<Edge>, seed: nat, w: Row) {
    forall i :: 0 <= i < |w.visited| ==> AtDistance(q, edges, seed, w.visited[i], i)
  }

  /** Every node at distance k + 1 has a row at that depth, along a shortest walk. */
  lemma {:induction false} RowsReachAll(q: Query, edges: set<Edge>, seed: nat, k: nat, v: nat) returns (w: Row)
    requires AtDistance(q, edges, seed, v, k + 1)
    ensures w in Level(q, edges, seed, k) && w.node == v && Geodesic(q, edges, seed, w)
    decreases k
  {
    var u := Nearer(q, edges, seed, v, k);
    var e :| e in edges && Hop(q, e, u) == Some(v);
    if k == 0 {
      assert u == seed;
      w := BaseRow(q, e, seed);
      assert AtDistance(q, edges, seed, seed, 0);
    } else {
      var p := RowsReachAll(q, edges, seed, k - 1, u);
      RowsAreWalks(q, edges, seed, k - 1, p);
      forall i | 0 <= i < |p.visited|
        ensures p.visited[i] != v
      {
        if p.visited[i] == v { DistanceUnique(q, edges, seed, v, i, k + 1); }
      }
      assert CanExtend(q, p, e);
      w := Extend(q, p, e);
    }
  }

  /** Whether a row is on one of the levels up to `k`. */
  predicate OnLevel(q: Query, edges: set<Edge>, seed: nat, k: nat, w: Row) {
    exists j: nat :: j <= k && w in Level(q, edges, seed, j)
  }

  lemma OnLevelNext(q: Query, edges: set<Edge>, seed: nat, k: nat, w: Row)
    ensures OnLevel(q, edges, seed, 0, w) <==> w in Level(q, edges, seed, 0)
    ensures OnLevel(q, edges, seed, k + 1, w) <==> OnLevel(q, edges, seed, k, w) || w in Level(q, edges, seed, k + 1)
  {
    if OnLevel(q, edges, seed, k, w) {
      var j: nat :| j <= k && w in Level(q, edges, seed, j);
      assert j <= k + 1 && w in Level(q, edges, seed, j);
    }
    if w in Level(q, edges, seed, 0) { assert OnLevel(q, edges, seed, 0, w); }
  }

  lemma {:induction false} TableLevels(q: Query, edges: set<Edge>, seed: nat, k: nat, w: Row)
    ensures w in Table(q, edges, seed, k) <==> OnLevel(q, edges, seed, k, w)
    decreases k
  {
    if k > 0 {
      TableLevels(q, edges, seed, k - 1, w);
      OnLevelNext(q, edges, seed, k - 1, w);
    } else {
      OnLevelNext(q, edges, seed, 0, w);
    }
  }

  /** A shallowest row of its node in the table. */
  predicate Shallowest(rows: set<Row>, w: Row) {
    w in rows && forall x :: x in rows && x.node == w.node ==> w.depth <= x.depth
  }

  /**
   * The kept row of a node other than the seed: its depth is the node's distance, its predecessor is
   * one hop nearer, and its edge is stored and leads from the predecessor to the node.
   */
  lemma ShallowestIsDistance(q: Query, edges: set<Edge>, seed: nat, k: nat, w: Row)
    requires Shallowest(Table(q, edges, seed, k), w) && w.node != seed
    ensures 1 <= w.depth <= k + 1 && AtDistance(q, edges, seed, w.node, w.depth)
    ensures AtDistance(q, edges, seed, w.via, w.depth - 1)
    ensures w.edge in edges && Hop(q, w.edge, w.via) == Some(w.node)
  {
    var j := LevelOf(q, edges, seed, k, w);
    var d := HasDistance(q, edges, seed, w.node, j + 1);
    if d < j + 1 {
      ShallowerRow(q, edges, seed, k, w.node, d);
    }
    PredecessorDistance(q, edges, seed, w.via, w.node, j);
  }

  lemma LevelOf(q: Query, edges: set<Edge>, seed: nat, k: nat, w: Row) returns (j: nat)
    requires w in Table(q, edges, seed, k)
    ensures j <= k && w.depth == j + 1 && w in Level(q, edges, seed, j)
    ensures w.edge in edges && Hop(q, w.edge, w.via) == Some(w.node)
    ensures Within(q, edges, seed, j, w.via) && Within(q, edges, seed, j + 1, w.node)
    ensures j == 0 ==> w.via == seed
    ensures j > 0 ==> w.node != seed
  {
    TableLevels(q, edges, seed, k, w);
    j :| j <= k && w in Level(q, edges, seed, j);
    RowsAreWalks(q, edges, seed, j, w);
  }

  /** A node nearer than the table is deep has a row at its distance. */
  lemma ShallowerRow(q: Query, edges: set<Edge>, seed: nat, k: nat, v: nat, d: nat)
    requires v != seed && d <= k + 1 && AtDistance(q, edges, seed, v, d)
    ensures exists x :: x in Table(q, edges, seed, k) && x.node == v && x.depth == d
  {
    var x := RowsReachAll(q, edges, seed, d - 1, v);
    RowsAreWalks(q, edges, seed, d - 1, x);
    TableLevels(q, edges, seed, k, x);
  }

  /** The predecessor of a node at distance j + 1 cannot be nearer than j. */
  lemma PredecessorDistance(q: Query, edges: set<Edge>, seed: nat, u: nat, v: nat, j: nat)
    requires Within(q, edges, seed, j, u) && Adjacent(q, edges, u, v) && AtDistance(q, edges, seed, v, j + 1)
    ensures AtDistance(q, edges, seed, u, j)
  {
    if j > 0 && Within(q, edges, seed, j - 1, u) { OneMoreHop(q, edges, seed, j - 1, u, v); }
  }

  predicate HasRow(rows: set<Row>, v: nat) {
    exists w :: w in rows && w.node == v
  }

  ghost predicate InReach(q: Query, edges: set<Edge>, seed: nat, k: nat, v: nat) {
    if v == seed then Adjacent(q, edges, seed, seed) else Within(q, edges, seed, k, v)
  }

  lemma RowIsInReach(q: Query, edges: set<Edge>, seed: nat, k: nat, w: Row)
    requires w in Table(q, edges, seed, k)
    ensures InReach(q, edges, seed, k + 1, w.node)
  {
    var j := LevelOf(q, edges, seed, k, w);
    WithinMonotone(q, edges, seed, j + 1, k + 1, w.node);
    assert Adjacent(q, edges, w.via, w.node);
  }

  lemma InReachHasRow(q: Query, edges: set<Edge>, seed: nat, k: nat, v: nat)
    requires InReach(q, edges, seed, k + 1, v)
    ensures HasRow(Table(q, edges, seed, k), v)
  {
    if v == seed {
      var e :| e in edges && Hop(q, e, seed) == Some(seed);
      var w := BaseRow(q, e, seed);
      assert w in Level(q, edges, seed, 0) && w.node == v;
      TableLevels(q, edges, seed, k, w);
    } else {
      var d := HasDistance(q, edges, seed, v, k + 1);
      ShallowerRow(q, edges, seed, k, v, d);
    }
  }

  /** Which nodes have rows: those within reach, and the seed just when it has a self-loop. */
  lemma TableNodes(q: Query, edges: set<Edge>, seed: nat, k: nat, v: nat)
    ensures HasRow(Table(q, edges, seed, k), v) <==> InReach(q, edges, seed, k + 1, v)
  {
    if HasRow(Table(q, edges, seed, k), v) {
      var w :| w in Table(q, edges, seed, k) && w.node == v;
      RowIsInReach(q, edges, seed, k, w);
    }
    if InReach(q, edges, seed, k + 1, v) { InReachHasRow(q, edges, seed, k, v); }
  }

  // ---------------------------------------------------------------- answers

  datatype Neighbor = Neighbor(node: nat, kind: EdgeKind, distance: nat, via: nat, line: Option<nat>, outgoing: bool)

  function Project(q: Query, w: Row): Neighbor {
    Neighbor(w.node, w.edge.kind, w.depth, w.via, w.edge.line, Outgoing(q, w.edge, w.via))
  }

  /** The depth cap as the query applies it: the base rows are never capped. */
  function Reach(depth: int): nat { if depth < 1 then 1 else depth }

  /** What one answer row promises about its node. */
  ghost predicate Faithful(q: Query, edges: set<Edge>, seed: nat, depth: int, n: Neighbor) {
    && 1 <= n.distance <= Reach(depth)
    && (exists e :: e in edges && Hop(q, e, n.via) == Some(n.node)
                    && n.kind == e.kind && n.line == e.line && n.outgoing == Outgoing(q, e, n.via))
    && (if n.node == seed then n.distance == 1 && n.via == seed
        else AtDistance(q, edges, seed, n.node, n.distance) && AtDistance(q, edges, seed, n.via, n.distance - 1))
  }

  /** What a query with this depth should find. */
  ghost predicate Wanted(q: Query, edges: set<Edge>, seed: nat, depth: int, v: nat) {
    InReach(q, edges, seed, Reach(depth), v)
  }

  lemma KeptRowIsFaithful(q: Query, edges: set<Edge>, seed: nat, depth: int, w: Row)
    requires Shallowest(Table(q, edges, seed, Reach(depth) - 1), w)
    ensures Faithful(q, edges, seed, depth, Project(q, w))
  {
    var k := Reach(depth) - 1;
    var j := LevelOf(q, edges, seed, k, w);
    if w.node != seed { ShallowestIsDistance(q, edges, seed, k, w); }
  }

  /** The recursive table, grown level by level until the depth cap. */
  method BuildTable(q: Query, edges: set<Edge>, seed: nat, depth: int) returns (rows: set<Row>)
    ensures rows == Table(q, edges, seed, Reach(depth) - 1)
  {
    var working := BaseRows(q, edges, seed);
    rows := working;
    var k: nat := 0;
    while k + 1 < depth
      invariant k <= Reach(depth) - 1
      invariant working == Level(q, edges, seed, k) && rows == Table(q, edges, seed, k)
    {
      working := NextRows(q, edges, working);
      rows := rows + working;
      k := k + 1;
    }
  }

  /** A shallowest row for a node, when it has any. */
  method KeepShallowest(rows: set<Row>, v: nat) returns (kept: Option<Row>)
    ensures kept.None? <==> !HasRow(rows, v)
    ensures kept.Some? ==> kept.value.node == v && Shallowest(rows, kept.value)
  {
    kept := None;
    var todo := rows;
    while todo != {}
      invariant todo <= rows
      invariant kept.None? <==> !HasRow(rows - todo, v)
      invariant kept.Some? ==> kept.value in rows && kept.value.node == v
                               && forall x :: x in rows - todo && x.node == v ==> kept.value.depth <= x.depth
    {
      var w :| w in todo;
      assert rows - (todo - {w}) == rows - todo + {w};
      if w.node == v && (kept.None? || w.depth < kept.value.depth) { kept := Some(w); }
      todo := todo - {w};
    }
    assert rows - todo == rows;
  }

  predicate Listed(answer: seq<Neighbor>, v: nat) { exists i :: 0 <= i < |answer| && answer[i].node == v }

  predicate InOrder(answer: seq<Neighbor>) { forall i, j :: 0 <= i < j < |answer| ==> answer[i].node < answer[j].node }

  /** Every row is wanted and faithful. */
  ghost predicate Right(q: Query, edges: set<Edge>, seed: nat, depth: int, answer: seq<Neighbor>) {
    forall n :: n in answer ==> Wanted(q, edges, seed, depth, n.node) && Faithful(q, edges, seed, depth, n)
  }

  /** No wanted node below `upto` is missing. */
  ghost predicate Covers(q: Query, edges: set<Edge>, seed: nat, depth: int, answer: seq<Neighbor>, upto: nat) {
    forall v: nat :: v < upto && Wanted(q, edges, seed, depth, v) ==> Listed(answer, v)
  }

  lemma ListedGrows(answer: seq<Neighbor>, n: Neighbor, v: nat)
    ensures Listed(answer + [n], v) <==> Listed(answer, v) || n.node == v
  {
    var after := answer + [n];
    assert after[|answer|] == n;
    if Listed(answer, v) {
      var i :| 0 <= i < |answer| && answer[i].node == v;
      assert after[i].node == v;
    }
  }

  predicate Below(answer: seq<Neighbor>, v: nat) { forall i :: 0 <= i < |answer| ==> answer[i].node < v }

  /** An answer for the nodes below `upto`, in order, right and complete. */
  ghost predicate Answers(q: Query, edges: set<Edge>, seed: nat, depth: int, answer: seq<Neighbor>, upto: nat) {
    && InOrder(answer) && Below(answer, upto)
    && Right(q, edges, seed, depth, answer) && Covers(q, edges, seed, depth, answer, upto)
  }

  lemma RowAdded(q: Query, edges: set<Edge>, seed: nat, depth: int, answer: seq<Neighbor>, n: Neighbor)
    requires Answers(q, edges, seed, depth, answer, n.node)
    requires Wanted(q, edges, seed, depth, n.node) && Faithful(q, edges, seed, depth, n)
    ensures Answers(q, edges, seed, depth, answer + [n], n.node + 1)
  {
    forall v: nat | v < n.node + 1 && Wanted(q, edges, seed, depth, v)
      ensures Listed(answer + [n], v)
    {
      ListedGrows(answer, n, v);
    }
  }

  lemma RowSkipped(q: Query, edges: set<Edge>, seed: nat, depth: int, answer: seq<Neighbor>, v: nat)
    requires Answers(q, edges, seed, depth, answer, v) && !Wanted(q, edges, seed, depth, v)
    ensures Answers(q, edges, seed, depth, answer, v + 1)
  {
  }

  /** The answer row of a node, when it is wanted. */
  method RowOf(q: Query, edges: set<Edge>, seed: nat, depth: int, rows: set<Row>, v: nat) returns (n: Option<Neighbor>)
    requires rows == Table(q, edges, seed, Reach(depth) - 1)
    ensures n.Some? <==> Wanted(q, edges, seed, depth, v)
    ensures n.Some? ==> n.value.node == v && Faithful(q, edges, seed, depth, n.value)
  {
    var kept := KeepShallowest(rows, v);
    TableNodes(q, edges, seed, Reach(depth) - 1, v);
    if kept.None? { return None; }
    KeptRowIsFaithful(q, edges, seed, depth, kept.value);
    n := Some(Project(q, kept.value));
  }

  /** An answer that ends with the row of its last node is complete up to that node. */
  ghost predicate CompleteToLast(q: Query, edges: set<Edge>, seed: nat, depth: int, answer: seq<Neighbor>) {
    answer != [] ==> Answers(q, edges, seed, depth, answer, answer[|answer| - 1].node + 1)
  }

  /**
   * One query over the nodes below `bound`: one row per reached node, in identifier order, cut at
   * `limit`. Every row is faithful; and no reached node is missing before the point where the limit cut.
   */
  method Run(q: Query, edges: set<Edge>, bound: nat, seed: nat, depth: int, limit: nat) returns (answer: seq<Neighbor>)
    requires forall e :: e in edges ==> e.src < bound && e.dst < bound
    ensures |answer| <= limit && (|answer| < limit ==> Answers(q, edges, seed, depth, answer, bound))
    ensures CompleteToLast(q, edges, seed, depth, answer)
  {
    var rows := BuildTable(q, edges, seed, depth);
    answer := [];
    var v: nat := 0;
    while v < bound && |answer| < limit
      invariant v <= bound && |answer| <= limit
      invariant Answers(q, edges, seed, depth, answer, v) && CompleteToLast(q, edges, seed, depth, answer)
    {
      var row := RowOf(q, edges, seed, depth, rows, v);
      match row {
        case Some(n) =>
          RowAdded(q, edges, seed, depth, answer, n);
          answer := answer + [n];
        case None =>
          RowSkipped(q, edges, seed, depth, answer, v);
      }
      v := v + 1;
    }
  }

  /** Every wanted node lies below the bound of the stored edges, so an uncut answer misses none at all. */
  lemma WantedIsBelow(q: Query, edges: set<Edge>, bound: nat, seed: nat, depth: int, v: nat)
    requires forall e :: e in edges ==> e.src < bound && e.dst < bound
    requires Wanted(q, edges, seed, depth, v)
    ensures v < bound
  {
    InReachHasRow(q, edges, seed, Reach(depth) - 1, v);
    var w :| w in Table(q, edges, seed, Reach(depth) - 1) && w.node == v;
    var j := LevelOf(q, edges, seed, Reach(depth) - 1, w);
  }

  // ---------------------------------------------------------------- answers, told by the stored edges

  /** A stored edge that a query walks from `u` to `v`: calls either way, what depends on `u`, or any edge. */
  predicate Joins(q: Query, e: Edge, u: nat, v: nat) {
    match q
    case Callees => e.kind == Calls && e.src == u && e.dst == v
    case Callers => e.kind == Calls && e.src == v && e.dst == u
    case Impact => (e.kind == Calls || e.kind == Inherits) && e.src == v && e.dst == u
    case Neighborhood => (e.src == u && e.dst == v) || (e.src == v && e.dst == u)
  }

  predicate Joined(q: Query, edges: set<Edge>, u: nat, v: nat) { exists e :: e in edges && Joins(q, e, u, v) }

  /** A walk over stored edges from `seed` to `v`. */
  predicate Walk(q: Query, edges: set<Edge>, seed: nat, v: nat, walk: seq<nat>) {
    && walk != [] && walk[0] == seed && walk[|walk| - 1] == v
    && forall i :: 0 < i < |walk| ==> Joined(q, edges, walk[i - 1], walk[i])
  }

  lemma HopJoins(q: Query, e: Edge, u: nat, v: nat)
    ensures Hop(q, e, u) == Some(v) <==> Joins(q, e, u, v)
  {
  }

  lemma AdjacentJoined(q: Query, edges: set<Edge>, u: nat, v: nat)
    ensures Adjacent(q, edges, u, v) <==> Joined(q, edges, u, v)
  {
    if Adjacent(q, edges, u, v) {
      var e :| e in edges && Hop(q, e, u) == Some(v);
      HopJoins(q, e, u, v);
    }
    if Joined(q, edges, u, v) {
      var e :| e in edges && Joins(q, e, u, v);
      HopJoins(q, e, u, v);
    }
  }

  lemma {:induction false} WithinHasWalk(q: Query, edges: set<Edge>, seed: nat, k: nat, v: nat) returns (walk: seq<nat>)
    requires Within(q, edges, seed, k, v)
    ensures Walk(q, edges, seed, v, walk) && |walk| <= k + 1
    decreases k
  {
    if k == 0 {
      walk := [seed];
    } else if Within(q, edges, seed, k - 1, v) {
      walk := WithinHasWalk(q, edges, seed, k - 1, v);
    } else {
      var u :| Within(q, edges, seed, k - 1, u) && Adjacent(q, edges, u, v);
      var before := WithinHasWalk(q, edges, seed, k - 1, u);
      AdjacentJoined(q, edges, u, v);
      walk := before + [v];
    }
  }

  lemma {:induction false} WalkIsWithin(q: Query, edges: set<Edge>, seed: nat, v: nat, walk: seq<nat>)
    requires Walk(q, edges, seed, v, walk)
    ensures Within(q, edges, seed, |walk| - 1, v)
    decreases |walk|
  {
    if |walk| > 1 {
      var before := walk[..|walk| - 1];
      var u := before[|before| - 1];
      WalkIsWithin(q, edges, seed, u, before);
      assert Joined(q, edges, walk[|walk| - 2], walk[|walk| - 1]);
      AdjacentJoined(q, edges, u, v);
      OneMoreHop(q, edges, seed, |walk| - 2, u, v);
    }
  }

  /**
   * What a query should find: the nodes some walk of at most `depth` stored edges reaches; a depth below one
   * counts as one.
   */
  lemma WantedIffWalk(q: Query, edges: set<Edge>, seed: nat, depth: int, v: nat)
    ensures v != seed ==>
              (Wanted(q, edges, seed, depth, v) <==>
               exists walk :: Walk(q, edges, seed, v, walk) && |walk| - 1 <= Max(1, depth))
    ensures Wanted(q, edges, seed, depth, seed) <==> Joined(q, edges, seed, seed)
  {
    AdjacentJoined(q, edges, seed, seed);
    if v != seed {
      if Wanted(q, edges, seed, depth, v) {
        var walk := WithinHasWalk(q, edges, seed, Reach(depth), v);
      }
      if walk :| Walk(q, edges, seed, v, walk) && |walk| - 1 <= Max(1, depth) {
        WalkIsWithin(q, edges, seed, v, walk);
        WithinMonotone(q, edges, seed, |walk| - 1, Reach(depth), v);
      }
    }
  }

  /** No walk over stored edges reaches `v` in fewer hops. */
  ghost predicate Shortest(q: Query, edges: set<Edge>, seed: nat, v: nat, hops: nat) {
    && (exists walk :: Walk(q, edges, seed, v, walk) && |walk| - 1 == hops)
    && forall walk :: Walk(q, edges, seed, v, walk) ==> hops <= |walk| - 1
  }

  lemma DistanceIsShortest(q: Query, edges: set<Edge>, seed: nat, v: nat, k: nat)
    requires AtDistance(q, edges, seed, v, k)
    ensures Shortest(q, edges, seed, v, k)
  {
    forall walk | Walk(q, edges, seed, v, walk)
      ensures k <= |walk| - 1
    {
      WalkIsWithin(q, edges, seed, v, walk);
      if |walk| - 1 < k { WithinMonotone(q, edges, seed, |walk| - 1, k - 1, v); }
    }
    var walk := WithinHasWalk(q, edges, seed, k, v);
  }

  /**
   * An answer row comes from one stored edge between its node and the node before it, in the query's direction,
   * with that edge's kind and line; `outgoing` says that the edge points to the node; and both nodes are as many
   * hops away as the shortest walks to them are long.
   */
  lemma RowIsStoredEdge(q: Query, edges: set<Edge>, seed: nat, depth: int, n: Neighbor)
    requires Faithful(q, edges, seed, depth, n)
    ensures exists e :: e in edges && Joins(q, e, n.via, n.node) && n.kind == e.kind && n.line == e.line
                        && (q == Callees ==> n.outgoing) && (q == Callers || q == Impact ==> !n.outgoing)
                        && (q == Neighborhood ==> (n.outgoing <==> e.src == n.via))
    ensures 1 <= n.distance <= Max(1, depth)
    ensures n.node != seed ==> && Shortest(q, edges, seed, n.node, n.distance)
                               && Shortest(q, edges, seed, n.via, n.distance - 1)
    ensures n.node == seed ==> n.distance == 1 && n.via == seed
  {
    var e :| e in edges && Hop(q, e, n.via) == Some(n.node)
             && n.kind == e.kind && n.line == e.line && n.outgoing == Outgoing(q, e, n.via);
    HopJoins(q, e, n.via, n.node);
    if n.node != seed {
      DistanceIsShortest(q, edges, seed, n.node, n.distance);
      DistanceIsShortest(q, edges, seed, n.via, n.distance - 1);
    }
  }

  /** One call: the callee's callers are the caller, and not the other way round. */
  lemma OneCall(edges: set<Edge>, e: Edge, depth: int)
    requires edges == {e} && e.kind == Calls && e.src != e.dst
    ensures Wanted(Callees, edges, e.src, depth, e.dst) && !Wanted(Callers, edges, e.src, depth, e.dst)
    ensures Wanted(Callers, edges, e.dst, depth, e.src) && Wanted(Impact, edges, e.dst, depth, e.src)
    ensures !Wanted(Impact, edges, e.src, depth, e.dst)
  {
    EdgeIsWalked(Callees, edges, e, e.src, e.dst, depth);
    EdgeIsWalked(Callers, edges, e, e.dst, e.src, depth);
    EdgeIsWalked(Impact, edges, e, e.dst, e.src, depth);
    NothingIsWalked(Callers, edges, e.src, e.dst, depth);
    NothingIsWalked(Impact, edges, e.src, e.dst, depth);
  }

  /** Every stored edge at the seed that a query walks makes its other end wanted, at any depth. */
  lemma EdgeIsWalked(q: Query, edges: set<Edge>, e: Edge, seed: nat, v: nat, depth: int)
    requires e in edges && Joins(q, e, seed, v)
    ensures Wanted(q, edges, seed, depth, v)
  {
    WantedIffWalk(q, edges, seed, depth, v);
    assert Walk(q, edges, seed, v, [seed, v]);
  }

  lemma WalkStarts(q: Query, edges: set<Edge>, seed: nat, v: nat, walk: seq<nat>)
    requires Walk(q, edges, seed, v, walk) && v != seed
    ensures |walk| > 1 && Joined(q, edges, seed, walk[1])
  {
    assert Joined(q, edges, walk[0], walk[1]);
  }

  lemma NothingIsWalked(q: Query, edges: set<Edge>, seed: nat, v: nat, depth: int)
    requires v != seed && forall u :: !Joined(q, edges, seed, u)
    ensures !Wanted(q, edges, seed, depth, v)
  {
    WantedIffWalk(q, edges, seed, depth, v);
    forall walk
      ensures !Walk(q, edges, seed, v, walk)
    {
      if Walk(q, edges, seed, v, walk) { WalkStarts(q, edges, seed, v, walk); }
    }
  }

  // ---------------------------------------------------------------- laws between queries

  /** A hop in front of a walk. */
  lemma {:induction false} HopThenWalk(q: Query, edges: set<Edge>, s: nat, u: nat, v: nat, k: nat)
    requires Adjacent(q, edges, s, u) && Within(q, edges, u, k, v)
    ensures Within(q, edges, s, k + 1, v)
    decreases k
  {
    if k == 0 {
      assert Within(q, edges, s, 0, s);
    } else if Within(q, edges, u, k - 1, v) {
      HopThenWalk(q, edges, s, u, v, k - 1);
    } else {
      var x :| Within(q, edges, u, k - 1, x) && Adjacent(q, edges, x, v);
      HopThenWalk(q, edges, s, u, x, k - 1);
    }
  }

  /** Queries that follow the same edges in opposite directions. */
  predicate Dual(q: Query, r: Query) {
    (q == Callees && r == Callers) || (q == Callers && r == Callees) || (q == Neighborhood && r == Neighborhood)
  }

  lemma DualAdjacent(q: Query, r: Query, edges: set<Edge>, u: nat, v: nat)
    requires Dual(q, r) && Adjacent(q, edges, u, v)
    ensures Adjacent(r, edges, v, u)
  {
    var e :| e in edges && Hop(q, e, u) == Some(v);
    assert Hop(r, e, v) == Some(u);
  }

  lemma {:induction false} DualWithin(q: Query, r: Query, edges: set<Edge>, s: nat, v: nat, k: nat)
    requires Dual(q, r) && Within(q, edges, s, k, v)
    ensures Within(r, edges, v, k, s)
    decreases k
  {
    if k > 0 {
      if Within(q, edges, s, k - 1, v) {
        DualWithin(q, r, edges, s, v, k - 1);
      } else {
        var u :| Within(q, edges, s, k - 1, u) && Adjacent(q, edges, u, v);
        DualWithin(q, r, edges, s, u, k - 1);
        DualAdjacent(q, r, edges, u, v);
        HopThenWalk(r, edges, v, u, s, k - 1);
      }
    }
  }

  /**
   * Callers and callees are dual, and neighbourhood is symmetric: one node is at some distance from
   * another under a query exactly when the other is at that distance from it under the dual query.
   */
  lemma DistancesAreDual(q: Query, r: Query, edges: set<Edge>, s: nat, v: nat, k: nat)
    requires Dual(q, r)
    ensures AtDistance(q, edges, s, v, k) <==> AtDistance(r, edges, v, s, k)
  {
    if AtDistance(q, edges, s, v, k) {
      DualWithin(q, r, edges, s, v, k);
      if k > 0 && Within(r, edges, v, k - 1, s) { DualWithin(r, q, edges, v, s, k - 1); }
    }
    if AtDistance(r, edges, v, s, k) {
      DualWithin(r, q, edges, v, s, k);
      if k > 0 && Within(q, edges, s, k - 1, v) { DualWithin(q, r, edges, s, v, k - 1); }
    }
  }

  lemma {:induction false} ImpactWithin(edges: set<Edge>, seed: nat, k: nat, v: nat)
    requires Within(Callers, edges, seed, k, v)
    ensures Within(Impact, edges, seed, k, v)
    decreases k
  {
    if k > 0 {
      if Within(Callers, edges, seed, k - 1, v) {
        ImpactWithin(edges, seed, k - 1, v);
      } else {
        var u :| Within(Callers, edges, seed, k - 1, u) && Adjacent(Callers, edges, u, v);
        ImpactWithin(edges, seed, k - 1, u);
        var e :| e in edges && Hop(Callers, e, u) == Some(v);
        assert Hop(Impact, e, u) == Some(v);
        assert Adjacent(Impact, edges, u, v);
      }
    }
  }

  /** Every caller is in the impact set, at no greater distance. */
  lemma ImpactContainsCallers(edges: set<Edge>, seed: nat, depth: int, v: nat, k: nat)
    requires Wanted(Callers, edges, seed, depth, v) && AtDistance(Callers, edges, seed, v, k)
    ensures Wanted(Impact, edges, seed, depth, v)
    ensures exists d :: 0 <= d <= k && AtDistance(Impact, edges, seed, v, d)
  {
    if v != seed { ImpactWithin(edges, seed, Reach(depth), v); }
    ImpactWithin(edges, seed, k, v);
    var d := HasDistance(Impact, edges, seed, v, k);
    if v == seed {
      var e :| e in edges && Hop(Callers, e, seed) == Some(seed);
      assert Hop(Impact, e, seed) == Some(seed);
    }
  }

  /** A graph without self-loops never answers with the seed itself. */
  lemma NoSelfLoopNoSeed(q: Query, edges: set<Edge>, seed: nat, depth: int)
    requires forall e :: e in edges ==> e.src != e.dst
    ensures !Wanted(q, edges, seed, depth, seed)
  {
  }
}
