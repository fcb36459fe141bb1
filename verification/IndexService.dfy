/**
 * The index as it is served (codeintel/application/indexer.py): store, vectors and the graph rebuilt from the
 * store in the same transaction, over any number of passes and crashes; and the pass as it runs in place.
 */
module IndexServiceImpl {
  import opened Common
  import opened CodeModel
  import opened Firsts
  import GraphBuilder
  import opened Indexer
  import opened IndexGraph
  import IndexEdges

  // ---------------------------------------------------------------- a pass with its graph

  datatype CodeIndex = CodeIndex(index: Index, graph: GraphBuilder.Graph)

  const NOTHING: CodeIndex := CodeIndex(EMPTY, GraphBuilder.Graph([], []))

  /** How the database happens to answer the two reads of a store. */
  type Reads = Files -> Listing

  /** The graph is rebuilt when a path was changed or removed, and left alone otherwise. */
  function FullPass(t: Tools, s: CodeIndex, manifest: seq<ManifestEntry>, disk: Disk, answer: Reads): CodeIndex {
    var next := Pass(t, s.index, manifest, disk);
    CodeIndex(next, if Touched(s.index.files, Desired(t, manifest)) == {} then s.graph else GraphOf(answer(next.files)))
  }

  /** The graph is that of some listing of the store. */
  ghost predicate GraphOk(rank: Collation, s: CodeIndex) {
    exists l :: Lists(rank, l, s.index.files) && s.graph == GraphOf(l)
  }

  lemma UntouchedFiles(t: Tools, s: Index, manifest: seq<ManifestEntry>, disk: Disk)
    requires Touched(s.files, Desired(t, manifest)) == {}
    ensures Pass(t, s, manifest, disk).files == s.files
  {
    forall p | p in s.files
      ensures p in Desired(t, manifest) && p !in Changed(s.files, Desired(t, manifest))
    {
      assert p !in Removed(s.files, Desired(t, manifest));
    }
  }

  /** A pass never lets the graph drift from the store, also when it leaves the graph alone. */
  lemma FullPassKeepsGraph(rank: Collation, t: Tools, s: CodeIndex, manifest: seq<ManifestEntry>, disk: Disk,
                           answer: Reads)
    requires GraphOk(rank, s)
    requires var files := Pass(t, s.index, manifest, disk).files; Lists(rank, answer(files), files)
    ensures GraphOk(rank, FullPass(t, s, manifest, disk, answer))
  {
    if Touched(s.index.files, Desired(t, manifest)) == {} {
      UntouchedFiles(t, s.index, manifest, disk);
    }
  }

  /** Neither does a crash: the store and the graph roll back together, whatever it leaves of the vectors. */
  lemma CrashKeepsGraph(rank: Collation, s: CodeIndex, wreck: Vectors)
    requires GraphOk(rank, s)
    ensures GraphOk(rank, s.(index := s.index.(vectors := wreck)))
  {
  }

  /** What happens to an index: a pass, or a crash of one that leaves some vectors. */
  datatype Happening = Ran(input: PassInput, answer: Reads) | Crashed(input: PassInput, wreck: Vectors)

  function After(t: Tools, happenings: seq<Happening>): CodeIndex {
    if happenings == [] then NOTHING
    else
      var s := After(t, happenings[..|happenings| - 1]);
      match happenings[|happenings| - 1]
      case Ran(input, answer) => FullPass(t, s, input.manifest, input.disk, answer)
      case Crashed(_, wreck) => s.(index := s.index.(vectors := wreck))
  }

  /** Every rebuild reads its store. */
  ghost predicate ReadsStores(rank: Collation, happenings: seq<Happening>) {
    forall h, files :: h in happenings && h.Ran? ==> Lists(rank, h.answer(files), files)
  }

  /** Over every history of passes and crashes the graph is that of some listing of the store. */
  lemma {:induction false} GraphFollowsStore(rank: Collation, t: Tools, happenings: seq<Happening>)
    requires ReadsStores(rank, happenings)
    ensures GraphOk(rank, After(t, happenings))
    decreases |happenings|
  {
    if happenings == [] {
      var none := Listing([], []);
      assert Lists(rank, none, EMPTY.files);
      assert GraphOf(none) == GraphBuilder.Graph([], []);
    } else {
      var before, last := happenings[..|happenings| - 1], happenings[|happenings| - 1];
      assert last in happenings && forall h :: h in before ==> h in happenings;
      GraphFollowsStore(rank, t, before);
      match last
      case Ran(input, answer) =>
        var files := Pass(t, After(t, before).index, input.manifest, input.disk).files;
        assert Lists(rank, last.answer(files), files);
        FullPassKeepsGraph(rank, t, After(t, before), input.manifest, input.disk, answer);
      case Crashed(_, wreck) =>
        CrashKeepsGraph(rank, After(t, before), wreck);
    }
  }

  /** No name is tied and no reference's targets are cut between ties. */
  ghost predicate Settled(rank: Collation, files: Files) {
    IndexEdges.AllUntied(files) && exists l :: Lists(rank, l, files) && IndexEdges.AllClean(rank, l)
  }

  function NodeKeysOf(g: GraphBuilder.Graph): set<GraphBuilder.Key> { KeysOf(g.nodes, GraphBuilder.NodeKey) }

  function EdgeKeysOf(g: GraphBuilder.Graph): set<(GraphBuilder.Key, GraphBuilder.Key, EdgeKind)> {
    KeysOf(g.edges, GraphBuilder.EdgeKey)
  }

  ghost predicate SameDefines(g: GraphBuilder.Graph, h: GraphBuilder.Graph) {
    forall e: GraphBuilder.GraphEdge :: e.kind == Defines ==> (e in g.edges <==> e in h.edges)
  }

  /**
   * Two graphs agree in what their store determines: node keys and edges from modules to definitions; where
   * no name is tied also the nodes; and where no cut is tied either also the edge keys.
   */
  ghost predicate Agree(rank: Collation, files: Files, g: GraphBuilder.Graph, h: GraphBuilder.Graph) {
    && NodeKeysOf(g) == NodeKeysOf(h) && SameDefines(g, h)
    && (IndexEdges.AllUntied(files) ==> forall n :: n in g.nodes <==> n in h.nodes)
    && (Settled(rank, files) ==> EdgeKeysOf(g) == EdgeKeysOf(h))
  }

  lemma ListingsDefine(rank: Collation, l: Listing, m: Listing, files: Files)
    requires Lists(rank, l, files) && Lists(rank, m, files)
    ensures SameDefines(GraphOf(l), GraphOf(m))
  {
    forall e: GraphBuilder.GraphEdge | e.kind == Defines
      ensures e in GraphOf(l).edges <==> e in GraphOf(m).edges
    {
      if e in GraphOf(l).edges { IndexEdges.DefinesEdgeIsDetermined(rank, l, m, files, e); }
      if e in GraphOf(m).edges { IndexEdges.DefinesEdgeIsDetermined(rank, m, l, files, e); }
    }
  }

  lemma ListingsLink(rank: Collation, l: Listing, m: Listing, files: Files)
    requires Lists(rank, l, files) && Lists(rank, m, files) && Settled(rank, files)
    ensures EdgeKeysOf(GraphOf(l)) == EdgeKeysOf(GraphOf(m))
  {
    var o :| Lists(rank, o, files) && IndexEdges.AllClean(rank, o);
    IndexEdges.SameEdgeKeys(rank, o, l, files);
    IndexEdges.SameEdgeKeys(rank, o, m, files);
  }

  lemma ListingsAgree(rank: Collation, l: Listing, m: Listing, files: Files)
    requires Lists(rank, l, files) && Lists(rank, m, files)
    ensures Agree(rank, files, GraphOf(l), GraphOf(m))
  {
    SameNodeKeys(rank, l, m, files);
    ListingsDefine(rank, l, m, files);
    if IndexEdges.AllUntied(files) { IndexEdges.SameNodes(rank, l, m, files); }
    if Settled(rank, files) { ListingsLink(rank, l, m, files); }
  }

  /** Any two graphs of one store agree. */
  lemma GraphsAgree(rank: Collation, a: CodeIndex, b: CodeIndex)
    requires GraphOk(rank, a) && GraphOk(rank, b) && a.index.files == b.index.files
    ensures Agree(rank, a.index.files, a.graph, b.graph)
  {
    var l :| Lists(rank, l, a.index.files) && a.graph == GraphOf(l);
    var m :| Lists(rank, m, a.index.files) && b.graph == GraphOf(m);
    ListingsAgree(rank, l, m, a.index.files);
  }

  /**
   * So a pass that brings store and vectors to what a pass from nothing gives (Indexer.PassEqualsFreshIff)
   * leaves a graph that agrees with the graph from nothing in everything the store determines.
   */
  lemma IncrementalGraphAgrees(rank: Collation, t: Tools, before: seq<Happening>, last: PassInput, answer: Reads,
                               anew: Reads)
    requires ReadsStores(rank, before + [Ran(last, answer)]) && ReadsStores(rank, [Ran(last, anew)])
    requires After(t, before + [Ran(last, answer)]).index == FromScratch(t, last.manifest, last.disk)
    ensures var a, b := After(t, before + [Ran(last, answer)]), FullPass(t, NOTHING, last.manifest, last.disk, anew);
            a.index == b.index && Agree(rank, a.index.files, a.graph, b.graph)
  {
    GraphFollowsStore(rank, t, before + [Ran(last, answer)]);
    GraphFollowsStore(rank, t, [Ran(last, anew)]);
    AfterOne(t, last, anew);
    GraphsAgree(rank, After(t, before + [Ran(last, answer)]), FullPass(t, NOTHING, last.manifest, last.disk, anew));
  }

  lemma AfterOne(t: Tools, input: PassInput, answer: Reads)
    ensures After(t, [Ran(input, answer)]) == FullPass(t, NOTHING, input.manifest, input.disk, answer)
  {
    assert [Ran(input, answer)][..0] == [];
  }

  // ---------------------------------------------------------------- the service

  datatype Outcome = Outcome(indexed: nat, removed: nat, skipped: nat)

  /** Changed paths the pass could not index: unreadable, or read but not parseable. */
  function Skipped(t: Tools, changed: set<string>, disk: Disk): set<string> {
    set p | p in changed && (p !in disk || t.parse(p, disk[p]).None?)
  }

  class IndexService {
    const t: Tools
    var files: Files
    var vectors: Vectors
    var graph: GraphBuilder.Graph

    function View(): CodeIndex
      reads this
    {
      CodeIndex(Index(files, vectors), graph)
    }

    constructor (t: Tools)
      ensures this.t == t && View() == NOTHING
    {
      this.t := t;
      files, vectors, graph := map[], map[], GraphBuilder.Graph([], []);
    }

    /** One record per chunk, upserted in order under the chunk's own point. */
    method EmbedAndUpsert(path: string, language: nat, source: string, chunks: seq<Chunk>)
      modifies this`vectors
      ensures vectors == old(vectors) + Upserted(path, language, source, chunks)
    {
      assert chunks[..0] == [];
      for i := 0 to |chunks|
        invariant vectors == old(vectors) + Upserted(path, language, source, chunks[..i])
      {
        assert chunks[..i + 1][..i] == chunks[..i];
        vectors := vectors[PointKey(path, chunks[i].startByte) :=
            VectorRecord(language, chunks[i], Content(source, chunks[i]))];
      }
      assert chunks[..|chunks|] == chunks;
    }

    /** Indexes one changed file; an unreadable one keeps its old row, an unparseable one an empty row. */
    method IndexFile(path: string, sha: nat, disk: Disk) returns (indexed: bool)
      modifies this`files, this`vectors
      ensures indexed == (path in disk && t.parse(path, disk[path]).Some?)
      ensures path !in disk ==> files == old(files) && vectors == old(vectors)
      ensures path in disk ==>
                var row := RowFor(t, path, Language(t, path), sha, disk[path]);
                && files == old(files)[path := row]
                && vectors == old(vectors) + FileVectors(path, row, disk[path])
    {
      if path !in disk { return false; }
      var source := disk[path];
      var row := RowFor(t, path, Language(t, path), sha, source);
      files := files[path := row];
      EmbedAndUpsert(path, row.language, source, row.chunks);
      indexed := t.parse(path, source).Some?;
    }

    method ReadManifest(manifest: seq<ManifestEntry>) returns (desired: map<string, nat>)
      ensures desired == Desired(t, manifest)
    {
      desired := map[];
      assert manifest[..0] == [];
      for i := 0 to |manifest|
        invariant desired == Desired(t, manifest[..i])
      {
        assert manifest[..i + 1][..i] == manifest[..i];
        if t.language(manifest[i].path).Some? { desired := desired[manifest[i].path := manifest[i].sha]; }
      }
      assert manifest[..|manifest|] == manifest;
    }

    /** Diff, remove, clear stale vectors, index what changed, rebuild the graph if anything did. */
    method Reindex(manifest: seq<ManifestEntry>, disk: Disk, answer: Reads) returns (outcome: Outcome)
      modifies this
      ensures View() == FullPass(t, old(View()), manifest, disk, answer)
      ensures var desired := Desired(t, manifest); var changed := Changed(old(files), desired);
              && outcome.removed == |Removed(old(files), desired)|
              && outcome.skipped == |Skipped(t, changed, disk)|
              && outcome.indexed + outcome.skipped == |changed|
    {
      var desired := ReadManifest(manifest);
      ghost var files0, vectors0 := files, vectors;
      var removed, changed := Removed(files, desired), Changed(files, desired);
      ClearStale(desired, removed, removed + changed, disk);
      var indexed, skipped := IndexChanged(desired, changed, disk, files0, vectors0, removed + changed);
      if removed + changed != {} { RebuildGraph(answer); }
      outcome := Outcome(indexed, |removed|, skipped);
    }

    /** Reads the symbols and references of the store and builds the graph anew. */
    method RebuildGraph(answer: Reads)
      modifies this`graph
      ensures graph == GraphOf(answer(files))
    {
      var listing := answer(files);
      graph := GraphBuilder.Build(listing.symbols, listing.references);
    }

    /** Rows of removed files go, and so do the vectors of everything about to change. */
    method ClearStale(desired: map<string, nat>, removed: set<string>, gone: set<string>, ghost disk: Disk)
      requires removed == Removed(files, desired)
      modifies this`files, this`vectors
      ensures files == FilesAfter(t, old(files), desired, disk, {})
      ensures vectors == VectorsAfter(t, old(vectors), gone, desired, disk, {})
    {
      files := map p | p in files && p !in removed :: files[p];
      vectors := map k | k in vectors && k.path !in gone :: vectors[k];
    }

    /** One changed path more. */
    method IndexNext(desired: map<string, nat>, p: string, disk: Disk,
                     ghost files0: Files, ghost vectors0: Vectors, ghost gone: set<string>, ghost done: set<string>)
      returns (indexed: bool)
      requires p in desired && p !in done && done <= desired.Keys && p in gone
      requires files == FilesAfter(t, files0, desired, disk, done)
      requires vectors == VectorsAfter(t, vectors0, gone, desired, disk, done)
      modifies this`files, this`vectors
      ensures files == FilesAfter(t, files0, desired, disk, done + {p})
      ensures vectors == VectorsAfter(t, vectors0, gone, desired, disk, done + {p})
      ensures indexed == (p in disk && t.parse(p, disk[p]).Some?)
    {
      FilesOne(t, files0, desired, disk, done, p);
      VectorsOne(t, vectors0, gone, desired, disk, done, p);
      indexed := IndexFile(p, desired[p], disk);
    }

    /** The loop over the changed paths; their order does not matter. */
    method IndexChanged(desired: map<string, nat>, changed: set<string>, disk: Disk,
                        ghost files0: Files, ghost vectors0: Vectors, ghost gone: set<string>)
      returns (indexed: nat, skipped: nat)
      requires changed <= desired.Keys && changed <= gone
      requires files == FilesAfter(t, files0, desired, disk, {})
      requires vectors == VectorsAfter(t, vectors0, gone, desired, disk, {})
      modifies this`files, this`vectors
      ensures files == FilesAfter(t, files0, desired, disk, changed)
      ensures vectors == VectorsAfter(t, vectors0, gone, desired, disk, changed)
      ensures skipped == |Skipped(t, changed, disk)| && indexed + skipped == |changed|
    {
      var todo := changed;
      ghost var done := {};
      indexed, skipped := 0, 0;
      while todo != {}
        invariant done !! todo && done + todo == changed
        invariant files == FilesAfter(t, files0, desired, disk, done)
        invariant vectors == VectorsAfter(t, vectors0, gone, desired, disk, done)
        invariant skipped == |Skipped(t, done, disk)| && indexed + skipped == |done|
      {
        var p :| p in todo;
        var ok := IndexNext(desired, p, disk, files0, vectors0, gone, done);
        SkippedOne(t, done, disk, p);
        if ok { indexed := indexed + 1; } else { skipped := skipped + 1; }
        todo, done := todo - {p}, done + {p};
      }
      assert done == changed;
    }
  }

  lemma {:induction false} SkippedOne(t: Tools, done: set<string>, disk: Disk, p: string)
    requires p !in done
    ensures |Skipped(t, done + {p}, disk)| ==
            |Skipped(t, done, disk)| + if p !in disk || t.parse(p, disk[p]).None? then 1 else 0
    ensures |done + {p}| == |done| + 1
  {
    var a, b := Skipped(t, done, disk), Skipped(t, done + {p}, disk);
    if p !in disk || t.parse(p, disk[p]).None? { assert b == a + {p}; } else { assert b == a; }
  }

  /** Indexing one more path extends the store by exactly its own row. */
  lemma {:induction false} FilesOne(t: Tools, files: Files, desired: map<string, nat>, disk: Disk, done: set<string>,
                                    p: string)
    requires p in desired && p !in done && done <= desired.Keys
    ensures FilesAfter(t, files, desired, disk, done + {p}) ==
            if p in disk then FilesAfter(t, files, desired, disk, done)[p := FreshRow(t, desired, disk, p)]
            else FilesAfter(t, files, desired, disk, done)
  {
  }

  /** And the vectors by exactly its own points. */
  lemma {:induction false} VectorsOne(t: Tools, vectors: Vectors, gone: set<string>, desired: map<string, nat>,
                                      disk: Disk, done: set<string>, p: string)
    requires p in desired && p !in done && done <= desired.Keys && p in gone
    ensures VectorsAfter(t, vectors, gone, desired, disk, done + {p}) ==
            if p in disk then VectorsAfter(t, vectors, gone, desired, disk, done) + FreshVectors(t, desired, disk, p)
            else VectorsAfter(t, vectors, gone, desired, disk, done)
  {
    var a := VectorsAfter(t, vectors, gone, desired, disk, done + {p});
    var before := VectorsAfter(t, vectors, gone, desired, disk, done);
    var b := if p in disk then before + FreshVectors(t, desired, disk, p) else before;
    forall k: PointKey
      ensures (k in a <==> k in b) && (k in a ==> a[k] == b[k])
    {
      PointOne(t, vectors, gone, desired, disk, done, p, k);
    }
    SameVectors(a, b);
  }

  lemma {:induction false} PointOne(t: Tools, vectors: Vectors, gone: set<string>, desired: map<string, nat>,
                                    disk: Disk, done: set<string>, p: string, k: PointKey)
    requires p in desired && p !in done && done <= desired.Keys && p in gone
    ensures var a := VectorsAfter(t, vectors, gone, desired, disk, done + {p});
            var before := VectorsAfter(t, vectors, gone, desired, disk, done);
            var b := if p in disk then before + FreshVectors(t, desired, disk, p) else before;
            (k in a <==> k in b) && (k in a ==> a[k] == b[k])
  {
    FreshKeyOne(t, desired, disk, done, p, k);
    PointAt(t, vectors, gone, desired, disk, done, k);
    PointAt(t, vectors, gone, desired, disk, done + {p}, k);
  }

  /** One point after clearing and upserting: the upserted one, or else the old one where it was not cleared. */
  lemma {:induction false} PointAt(t: Tools, vectors: Vectors, gone: set<string>, desired: map<string, nat>, disk: Disk,
                                   done: set<string>, k: PointKey)
    requires done <= desired.Keys
    ensures var v, upserted := VectorsAfter(t, vectors, gone, desired, disk, done), FreshKeys(t, desired, disk, done);
            && (k in v <==> k in upserted || (k in vectors && k.path !in gone))
            && (k in v ==> v[k] == if k in upserted then FreshVectors(t, desired, disk, k.path)[k] else vectors[k])
  {
  }

  /** The keys one more path adds are its own. */
  lemma {:induction false} FreshKeyOne(t: Tools, desired: map<string, nat>, disk: Disk, done: set<string>, p: string,
                                       k: PointKey)
    requires p in desired && p !in done && done <= desired.Keys
    ensures k in FreshKeys(t, desired, disk, done + {p}) <==>
            k in FreshKeys(t, desired, disk, done) || (p in disk && k in FreshVectors(t, desired, disk, p))
    ensures k in FreshKeys(t, desired, disk, done) ==> k.path != p
    ensures p in disk && k in FreshVectors(t, desired, disk, p) ==> k.path == p
  {
    if p in disk { FreshVectorsAt(t, desired, disk, p); }
  }
}
