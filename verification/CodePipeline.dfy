/** Where the parser's guarantees meet the vector index and the knowledge graph. */
module CodePipeline {
  import opened Common
  import opened CodeModel
  import opened Firsts
  import Chunker
  import GraphBuilder
  import Indexer
  import IndexGraph

  /** Every chunk's own record under its own point, and nothing else. */
  predicate OneEach(v: Indexer.Vectors, path: string, language: nat, source: string, chunks: seq<Chunk>) {
    && |v| == |chunks|
    && forall c :: c in chunks ==> HasOwn(v, path, language, source, c)
  }

  predicate HasOwn(v: Indexer.Vectors, path: string, language: nat, source: string, c: Chunk) {
    var key := Indexer.PointKey(path, c.startByte);
    key in v && v[key] == Indexer.VectorRecord(language, c, Indexer.Content(source, c))
  }

  /** A chunk with a new first byte adds a record and overwrites none. */
  lemma OneMore(v: Indexer.Vectors, path: string, language: nat, source: string, init: seq<Chunk>, last: Chunk)
    requires OneEach(v, path, language, source, init)
    requires Indexer.PointKey(path, last.startByte) !in v
    ensures var key := Indexer.PointKey(path, last.startByte);
            var record := Indexer.VectorRecord(language, last, Indexer.Content(source, last));
            OneEach(v[key := record], path, language, source, init + [last])
  {
    var key := Indexer.PointKey(path, last.startByte);
    var v' := v[key := Indexer.VectorRecord(language, last, Indexer.Content(source, last))];
    assert v'.Keys == v.Keys + {key};
    forall c | c in init + [last]
      ensures HasOwn(v', path, language, source, c)
    {
      if c in init { assert HasOwn(v, path, language, source, c); }
    }
  }

  /** Points written for chunks whose first bytes differ never overwrite each other. */
  lemma {:induction false} UpsertedOnce(path: string, language: nat, source: string, chunks: seq<Chunk>)
    requires Chunker.Ascending(chunks)
    ensures OneEach(Indexer.Upserted(path, language, source, chunks), path, language, source, chunks)
    decreases |chunks|
  {
    if chunks != [] {
      var init, last := chunks[..|chunks| - 1], chunks[|chunks| - 1];
      assert chunks == init + [last];
      UpsertedOnce(path, language, source, init);
      NewPoint(path, language, source, chunks);
      OneMore(Indexer.Upserted(path, language, source, init), path, language, source, init, last);
    }
  }

  lemma NewPoint(path: string, language: nat, source: string, chunks: seq<Chunk>)
    requires chunks != [] && Chunker.Ascending(chunks)
    ensures Indexer.PointKey(path, chunks[|chunks| - 1].startByte) !in
            Indexer.Upserted(path, language, source, chunks[..|chunks| - 1])
  {
    LastIsNew(chunks);
    Indexer.UpsertedKeys(path, language, source, chunks[..|chunks| - 1]);
  }

  lemma LastIsNew(chunks: seq<Chunk>)
    requires chunks != [] && Chunker.Ascending(chunks)
    ensures forall c :: c in chunks[..|chunks| - 1] ==> c.startByte != chunks[|chunks| - 1].startByte
  {
    var init := chunks[..|chunks| - 1];
    forall c | c in init
      ensures c.startByte != chunks[|init|].startByte
    {
      var i :| 0 <= i < |init| && init[i] == c;
      assert chunks[i].startByte < chunks[|init|].startByte;
    }
  }

  /** Screening flags chunks; it does not move them. */
  lemma ScreeningKeepsRanges(t: Indexer.Tools, source: string, chunks: seq<Chunk>, hi: nat)
    requires Chunker.Disjoint(chunks, hi)
    ensures Chunker.Disjoint(Indexer.Screened(t, source, chunks), hi)
  {
    var screened := Indexer.Screened(t, source, chunks);
    forall i, j | 0 <= i < j < |screened|
      ensures screened[i].endByte <= screened[j].startByte && screened[i].startByte < screened[j].startByte
    {
      assert chunks[i].endByte <= chunks[j].startByte && chunks[i].startByte < chunks[j].startByte;
    }
    forall c | c in screened
      ensures c.startByte < c.endByte <= hi
    {
      var i :| 0 <= i < |screened| && screened[i] == c;
      assert chunks[i] in chunks;
    }
  }

  /**
   * A file parsed from a well-formed tree gets exactly one vector per chunk, each holding that chunk and
   * its own slice of the source: point identifiers made of a path and a first byte never collide.
   */
  lemma EveryChunkHasItsOwnVector(t: Indexer.Tools, path: string, row: Indexer.FileRow, g: Chunker.Grammar,
                                  root: Chunker.Node, source: string)
    requires Chunker.WellNested(root) && Chunker.Proper(g, root) && root.endByte <= |source|
    requires row.chunks == Indexer.Screened(t, source, Chunker.Extract(g, root, |source|).chunks)
    ensures var v := Indexer.FileVectors(path, row, source);
            && |v| == |row.chunks|
            && forall c :: c in row.chunks ==>
                             && c.startByte < c.endByte <= |source|
                             && Indexer.PointKey(path, c.startByte) in v
                             && v[Indexer.PointKey(path, c.startByte)] ==
                                 Indexer.VectorRecord(row.language, c, source[c.startByte..c.endByte])
  {
    Chunker.ChunksAreDisjoint(g, root, |source|);
    ScreeningKeepsRanges(t, source, Chunker.Extract(g, root, |source|).chunks, |source|);
    UpsertedOnce(path, row.language, source, row.chunks);
  }

  /** Some syntax tree explains a stored row's symbols and references. */
  ghost predicate FromTree(row: Indexer.FileRow) {
    exists g, root, length ::
      && Chunker.GrammarOk(g) && Chunker.RefinedOk(root)
      && row.symbols == Chunker.Extract(g, root, length).symbols
      && row.references == Chunker.Extract(g, root, length).references
  }

  /**
   * In a store filled by the parser, every reference of a file with at least one symbol reaches the
   * graph: each target it resolves to is joined to its scope by an edge of the reference's kind.
   */
  lemma StoredReferencesReachTheGraph(rank: IndexGraph.Collation, files: Indexer.Files, l: IndexGraph.Listing,
                                      r: GraphBuilder.In<Reference>)
    requires IndexGraph.Lists(rank, l, files)
    requires r in l.references && r.path in files && FromTree(files[r.path]) && files[r.path].symbols != []
    ensures var g := IndexGraph.GraphOf(l);
            forall n :: n in GraphBuilder.ResolveTargets(r.path, r.item, g.nodes) ==>
                          GraphBuilder.EdgeKey(GraphBuilder.RefEdge(r, n)) in KeysOf(g.edges, GraphBuilder.EdgeKey)
  {
    IndexGraph.ListedReferences(rank, l, files, r);
    var row := files[r.path];
    var g, root, length :|
      && Chunker.GrammarOk(g) && Chunker.RefinedOk(root)
      && row.symbols == Chunker.Extract(g, root, length).symbols
      && row.references == Chunker.Extract(g, root, length).references;
    Chunker.ReferencesHaveScopes(g, root, length);
    if r.item.fromQualifiedName == MODULE_SCOPE {
      IndexGraph.ListedSymbols(rank, l, files, GraphBuilder.In(r.path, row.symbols[0]));
    } else {
      assert Chunker.Defines(row.symbols, r.item.fromQualifiedName);
      var s :| s in row.symbols && !s.kind.ImportKind? && s.qualifiedName == r.item.fromQualifiedName;
      IndexGraph.ListedSymbols(rank, l, files, GraphBuilder.In(r.path, s));
    }
    GraphBuilder.ReferencesAreKept(l.symbols, l.references, r);
  }

  // ---------------------------------------------------------------- from passes to trees, vectors and the graph

  /** What a tree of some grammar extracts to. */
  ghost predicate Extracted(unit: Indexer.ParsedUnit) {
    exists g, root, length ::
      && Chunker.GrammarOk(g) && Chunker.RefinedOk(root)
      && unit.symbols == Chunker.Extract(g, root, length).symbols
      && unit.references == Chunker.Extract(g, root, length).references
  }

  /** The parser extracts from syntax trees. */
  ghost predicate ParsesTrees(t: Indexer.Tools) {
    forall p, source :: t.parse(p, source).Some? ==> Extracted(t.parse(p, source).value)
  }

  lemma NothingIsFromTree(row: Indexer.FileRow)
    requires row.symbols == [] && row.references == []
    ensures FromTree(row)
  {
    var g := Chunker.Grammar(map[], {}, {}, {});
    var root := Chunker.Node("", 0, 0, 0, 0, None, None, None, [], "", [], []);
    assert Chunker.GrammarOk(g) && Chunker.RefinedOk(root);
    assert Chunker.Extract(g, root, 0).symbols == [] && Chunker.Extract(g, root, 0).references == [];
  }

  /** Every row of every sequence of passes comes from a tree, or is empty, which a tree explains as well. */
  lemma RowsComeFromTrees(t: Indexer.Tools, inputs: seq<Indexer.PassInput>, p: string)
    requires ParsesTrees(t) && p in Indexer.Passes(t, inputs).files
    ensures FromTree(Indexer.Passes(t, inputs).files[p])
  {
    var row := Indexer.Passes(t, inputs).files[p];
    Indexer.RowsHoldParses(t, inputs, p);
    var i :| i in inputs && p in i.disk && p in Indexer.Desired(t, i.manifest)
             && Indexer.Desired(t, i.manifest)[p] == row.sha && Indexer.HoldsParse(t, p, row, i.disk[p]);
    if t.parse(p, i.disk[p]).None? {
      NothingIsFromTree(row);
    } else {
      assert Extracted(t.parse(p, i.disk[p]).value);
    }
  }

  /**
   * So after any passes of the indexer, every resolved target of every stored reference of a file with a symbol is
   * joined to its scope in the graph built from any listing of the store.
   */
  lemma IndexedReferencesReachTheGraph(t: Indexer.Tools, inputs: seq<Indexer.PassInput>, rank: IndexGraph.Collation,
                                       l: IndexGraph.Listing, r: GraphBuilder.In<Reference>)
    requires ParsesTrees(t) && IndexGraph.Lists(rank, l, Indexer.Passes(t, inputs).files) && r in l.references
    requires r.path in Indexer.Passes(t, inputs).files && Indexer.Passes(t, inputs).files[r.path].symbols != []
    ensures var g := IndexGraph.GraphOf(l);
            forall n :: n in GraphBuilder.ResolveTargets(r.path, r.item, g.nodes) ==>
                          GraphBuilder.EdgeKey(GraphBuilder.RefEdge(r, n)) in KeysOf(g.edges, GraphBuilder.EdgeKey)
  {
    RowsComeFromTrees(t, inputs, r.path);
    StoredReferencesReachTheGraph(rank, Indexer.Passes(t, inputs).files, l, r);
  }

  /** The vector of a non-empty chunk inside its source. */
  predicate HasScreened(t: Indexer.Tools, p: string, v: Indexer.Vectors, source: string, c: Chunk) {
    var key := Indexer.PointKey(p, c.startByte); var text := Indexer.Content(source, c);
    && c.startByte < c.endByte <= |source| && text == source[c.startByte..c.endByte] && key in v
    && v[key] == Indexer.VectorRecord(Indexer.Language(t, p), c.(suspect := t.screen(text)), text)
  }

  /**
   * After a pass, every chunk of a stale file that was read and whose tree is well formed has its own vector, which
   * holds that chunk, screened, and its slice of the bytes on disk; the file has no other vector.
   */
  lemma IndexedChunksHaveVectors(t: Indexer.Tools, s: Indexer.Index, manifest: seq<Indexer.ManifestEntry>,
                                 disk: Indexer.Disk, p: string, g: Chunker.Grammar, root: Chunker.Node)
    requires Indexer.IsStale(s, Indexer.Desired(t, manifest), p) && p in disk && t.parse(p, disk[p]).Some?
    requires Chunker.WellNested(root) && Chunker.Proper(g, root) && root.endByte <= |disk[p]|
    requires t.parse(p, disk[p]).value.chunks == Chunker.Extract(g, root, |disk[p]|).chunks
    ensures var v, chunks := Indexer.Pass(t, s, manifest, disk).vectors, Chunker.Extract(g, root, |disk[p]|).chunks;
            && (forall c :: c in chunks ==> HasScreened(t, p, v, disk[p], c))
            && (forall k :: k in v && k.path == p ==> exists c :: c in chunks && c.startByte == k.startByte)
  {
    IndexedRow(t, s, manifest, disk, p);
    var s' := Indexer.Pass(t, s, manifest, disk);
    var row, chunks := s'.files[p], Chunker.Extract(g, root, |disk[p]|).chunks;
    EveryChunkHasItsOwnVector(t, p, row, g, root, disk[p]);
    AllScreened(t, s', p, row, disk[p], chunks);
    VectorsAreScreened(t, s', p, row, disk[p], chunks);
  }

  /** What the pass leaves of a stale file that it read. */
  lemma IndexedRow(t: Indexer.Tools, s: Indexer.Index, manifest: seq<Indexer.ManifestEntry>, disk: Indexer.Disk,
                   p: string)
    requires Indexer.IsStale(s, Indexer.Desired(t, manifest), p) && p in disk && t.parse(p, disk[p]).Some?
    ensures var s' := Indexer.Pass(t, s, manifest, disk);
            && p in s'.files && t.language(p) == Some(s'.files[p].language)
            && s'.files[p].chunks == Indexer.Screened(t, disk[p], t.parse(p, disk[p]).value.chunks)
            && Indexer.Explains(t, p, s'.files[p], s'.vectors, disk[p])
            && Indexer.Complete(p, s'.files[p], s'.vectors, disk[p])
  {
    Indexer.FreshBacking(t, s, manifest, disk, p);
    Indexer.PassStoresParses(t, s, manifest, disk, p);
  }

  lemma AllScreened(t: Indexer.Tools, s: Indexer.Index, p: string, row: Indexer.FileRow, source: string,
                    chunks: seq<Chunk>)
    requires row.chunks == Indexer.Screened(t, source, chunks)
    requires t.language(p) == Some(row.language) && Indexer.Explains(t, p, row, s.vectors, source)
    requires Indexer.Complete(p, row, s.vectors, source)
    requires var v := Indexer.FileVectors(p, row, source);
             forall c :: c in row.chunks ==>
                           && c.startByte < c.endByte <= |source|
                           && Indexer.PointKey(p, c.startByte) in v
                           && v[Indexer.PointKey(p, c.startByte)] ==
                               Indexer.VectorRecord(row.language, c, source[c.startByte..c.endByte])
    ensures forall c :: c in chunks ==> HasScreened(t, p, s.vectors, source, c)
  {
    forall c | c in chunks
      ensures HasScreened(t, p, s.vectors, source, c)
    {
      var i :| 0 <= i < |chunks| && chunks[i] == c;
      ScreenedVector(t, s, p, row, source, chunks, i);
    }
  }

  lemma VectorsAreScreened(t: Indexer.Tools, s: Indexer.Index, p: string, row: Indexer.FileRow, source: string,
                           chunks: seq<Chunk>)
    requires row.chunks == Indexer.Screened(t, source, chunks) && Indexer.Explains(t, p, row, s.vectors, source)
    ensures forall k :: k in s.vectors && k.path == p ==> exists c :: c in chunks && c.startByte == k.startByte
  {
    Indexer.UpsertedKeys(p, row.language, source, row.chunks);
    forall k | k in s.vectors && k.path == p
      ensures exists c :: c in chunks && c.startByte == k.startByte
    {
      var i :| 0 <= i < |row.chunks| && row.chunks[i] == s.vectors[k].chunk;
      assert chunks[i] in chunks && chunks[i].startByte == k.startByte;
    }
  }

  lemma ScreenedVector(t: Indexer.Tools, s: Indexer.Index, p: string, row: Indexer.FileRow, source: string,
                       chunks: seq<Chunk>, i: nat)
    requires i < |chunks| && row.chunks == Indexer.Screened(t, source, chunks)
    requires t.language(p) == Some(row.language) && Indexer.Explains(t, p, row, s.vectors, source)
    requires Indexer.Complete(p, row, s.vectors, source)
    requires var v := Indexer.FileVectors(p, row, source);
             forall c :: c in row.chunks ==>
                           && c.startByte < c.endByte <= |source|
                           && Indexer.PointKey(p, c.startByte) in v
                           && v[Indexer.PointKey(p, c.startByte)] ==
                               Indexer.VectorRecord(row.language, c, source[c.startByte..c.endByte])
    ensures HasScreened(t, p, s.vectors, source, chunks[i])
  {
    var c := row.chunks[i];
    assert c in row.chunks && c == chunks[i].(suspect := t.screen(Indexer.Content(source, chunks[i])));
    Indexer.ContentIsSlice(source, chunks[i]);
  }
}
