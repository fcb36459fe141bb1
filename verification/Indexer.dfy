/**
 * Incremental code indexing (codeintel/application/indexer.py): a symbol store and a
 * vector index that does not roll back with it. The graph is in IndexGraph.
 * Parsing, hashing, language detection and screening are arbitrary functions.
 */
module Indexer {
  import opened Common
  import opened CodeModel

  datatype ParsedUnit = ParsedUnit(symbols: seq<Symbol>, chunks: seq<Chunk>, references: seq<Reference>)

  datatype FileRow = FileRow(sha: nat, language: nat, symbols: seq<Symbol>, chunks: seq<Chunk>,
                             references: seq<Reference>)

  /** A point identifier is a function of the path and the chunk's first byte, and only of these. */
  datatype PointKey = PointKey(path: string, startByte: nat)

  datatype VectorRecord = VectorRecord(language: nat, chunk: Chunk, content: string)

  datatype ManifestEntry = ManifestEntry(path: string, sha: nat)

  type Files = map<string, FileRow>

  type Vectors = map<PointKey, VectorRecord>

  datatype Tools = Tools(
    hash: string -> nat,
    language: string -> Option<nat>,
    parse: (string, string) -> Option<ParsedUnit>,
    screen: string -> bool)

  datatype Index = Index(files: Files, vectors: Vectors)

  const EMPTY: Index := Index(map[], map[])

  // ---------------------------------------------------------------- one file

  /** Byte slicing that tolerates ends past the source. */
  function Slice(source: string, a: nat, b: nat): string {
    var end := if b < |source| then b else |source|;
    if a <= end then source[a..end] else ""
  }

  function Content(source: string, chunk: Chunk): string { Slice(source, chunk.startByte, chunk.endByte) }

  function Screened(t: Tools, source: string, chunks: seq<Chunk>): (r: seq<Chunk>)
    ensures |r| == |chunks|
  {
    seq(|chunks|, i requires 0 <= i < |chunks| => chunks[i].(suspect := t.screen(Content(source, chunks[i]))))
  }

  /** The row a readable file gets: its parse, or an empty record when it does not parse. */
  function RowFor(t: Tools, path: string, language: nat, sha: nat, source: string): FileRow {
    match t.parse(path, source)
    case None => FileRow(sha, language, [], [], [])
    case Some(unit) => FileRow(sha, language, unit.symbols, Screened(t, source, unit.chunks), unit.references)
  }

  /** Upserting a file's chunks in order: a later chunk with the same first byte overwrites. */
  function Upserted(path: string, language: nat, source: string, chunks: seq<Chunk>): Vectors {
    if chunks == [] then map[]
    else
      var last := chunks[|chunks| - 1];
      Upserted(path, language, source, chunks[..|chunks| - 1])
      [PointKey(path, last.startByte) := VectorRecord(language, last, Content(source, last))]
  }

  function FileVectors(path: string, row: FileRow, source: string): Vectors {
    Upserted(path, row.language, source, row.chunks)
  }

  lemma {:induction false} UpsertedKeys(path: string, language: nat, source: string, chunks: seq<Chunk>)
    ensures forall k :: k in Upserted(path, language, source, chunks) ==>
                          && k.path == path
                          && var v := Upserted(path, language, source, chunks)[k];
                          && v.chunk in chunks && v.chunk.startByte == k.startByte && v.language == language
                          && v.content == Content(source, v.chunk)
    ensures forall c :: c in chunks ==> PointKey(path, c.startByte) in Upserted(path, language, source, chunks)
  {
    if chunks != [] { UpsertedKeys(path, language, source, chunks[..|chunks| - 1]); }
  }

  // ---------------------------------------------------------------- one pass, as a function

  function Desired(t: Tools, manifest: seq<ManifestEntry>): map<string, nat> {
    if manifest == [] then map[]
    else
      var before := Desired(t, manifest[..|manifest| - 1]);
      var entry := manifest[|manifest| - 1];
      if t.language(entry.path).Some? then before[entry.path := entry.sha] else before
  }

  lemma {:induction false} DesiredHasLanguage(t: Tools, manifest: seq<ManifestEntry>)
    ensures forall p :: p in Desired(t, manifest) ==> t.language(p).Some?
  {
    if manifest != [] { DesiredHasLanguage(t, manifest[..|manifest| - 1]); }
  }

  function Removed(files: Files, desired: map<string, nat>): set<string> {
    set p | p in files && p !in desired
  }

  function Changed(files: Files, desired: map<string, nat>): set<string> {
    set p | p in desired && (p !in files || files[p].sha != desired[p])
  }

  function Touched(files: Files, desired: map<string, nat>): set<string> {
    Removed(files, desired) + Changed(files, desired)
  }

  /** What the reader finds: an absent path cannot be read. */
  type Disk = map<string, string>

  function Language(t: Tools, p: string): nat {
    if t.language(p).Some? then t.language(p).value else 0
  }

  function FreshRow(t: Tools, desired: map<string, nat>, disk: Disk, p: string): FileRow
    requires p in desired && p in disk
  {
    RowFor(t, p, Language(t, p), desired[p], disk[p])
  }

  /** The store after indexing the paths in `done`. */
  function FilesAfter(t: Tools, files: Files, desired: map<string, nat>, disk: Disk, done: set<string>): Files
    requires done <= desired.Keys
  {
    (map p | p in files && p !in Removed(files, desired) :: files[p])
    + (map p | p in done && p in disk :: FreshRow(t, desired, disk, p))
  }

  function FreshVectors(t: Tools, desired: map<string, nat>, disk: Disk, p: string): Vectors
    requires p in desired && p in disk
  {
    FileVectors(p, FreshRow(t, desired, disk, p), disk[p])
  }

  /** The vectors after clearing `gone` and upserting the paths in `done`. */
  function VectorsAfter(t: Tools, vectors: Vectors, gone: set<string>, desired: map<string, nat>, disk: Disk,
                               done: set<string>): Vectors
    requires done <= desired.Keys
  {
    (map k | k in vectors && k.path !in gone :: vectors[k])
    + (map k | k in FreshKeys(t, desired, disk, done) :: FreshVectors(t, desired, disk, k.path)[k])
  }

  function FreshKeys(t: Tools, desired: map<string, nat>, disk: Disk, done: set<string>): (keys: set<PointKey>)
    requires done <= desired.Keys
    ensures forall k :: k in keys <==> k.path in done && k.path in disk && k in FreshVectors(t, desired, disk, k.path)
  {
    var keys := set p, k | p in done && p in disk && k in FreshVectors(t, desired, disk, p) :: k;
    FreshKeysExact(t, desired, disk, done, keys);
    keys
  }

  lemma {:induction false} FreshKeysExact(t: Tools, desired: map<string, nat>, disk: Disk, done: set<string>,
                                          keys: set<PointKey>)
    requires done <= desired.Keys
    requires keys == set p, k | p in done && p in disk && k in FreshVectors(t, desired, disk, p) :: k
    ensures forall k :: k in keys <==> k.path in done && k.path in disk && k in FreshVectors(t, desired, disk, k.path)
  {
    forall p, k | p in done && p in disk && k in FreshVectors(t, desired, disk, p)
      ensures k.path == p
    {
      var row := FreshRow(t, desired, disk, p);
      UpsertedKeys(p, row.language, disk[p], row.chunks);
    }
  }

  function Pass(t: Tools, s: Index, manifest: seq<ManifestEntry>, disk: Disk): Index {
    var desired := Desired(t, manifest);
    var changed, touched := Changed(s.files, desired), Touched(s.files, desired);
    Index(FilesAfter(t, s.files, desired, disk, changed), VectorsAfter(t, s.vectors, touched, desired, disk, changed))
  }

  /** A pass from nothing over the same manifest and disk. */
  function FromScratch(t: Tools, manifest: seq<ManifestEntry>, disk: Disk): Index {
    Pass(t, EMPTY, manifest, disk)
  }

  // ---------------------------------------------------------------- what an index should contain

  ghost predicate Injective(hash: string -> nat) {
    forall a, b :: hash(a) == hash(b) ==> a == b
  }

  /** The manifest's hashes are those of the bytes the reader finds. */
  predicate Consistent(t: Tools, manifest: seq<ManifestEntry>, disk: Disk) {
    var desired := Desired(t, manifest);
    forall p :: p in desired && p in disk ==> t.hash(disk[p]) == desired[p]
  }

  predicate Readable(t: Tools, manifest: seq<ManifestEntry>, disk: Disk) {
    Desired(t, manifest).Keys <= disk.Keys
  }

  /** The stored row of `p` is what parsing `source` gives. */
  predicate Parses(t: Tools, p: string, row: FileRow, source: string) {
    t.language(p).Some? && row == RowFor(t, p, Language(t, p), row.sha, source)
  }

  /** `source` explains the stored row of `p`, and no vector of `p` says anything else. */
  predicate Explains(t: Tools, p: string, row: FileRow, vectors: Vectors, source: string) {
    && Parses(t, p, row, source)
    && forall k :: k in vectors && k.path == p ==>
        k in FileVectors(p, row, source) && FileVectors(p, row, source)[k] == vectors[k]
  }

  predicate Complete(p: string, row: FileRow, vectors: Vectors, source: string) {
    forall k :: k in FileVectors(p, row, source) ==> k in vectors
  }

  /** Every row is the parse of some bytes, and no vector contradicts a row. */
  ghost predicate Included(t: Tools, s: Index) {
    && (forall p :: p in s.files ==> exists source :: Explains(t, p, s.files[p], s.vectors, source))
    && (forall k :: k in s.vectors ==> k.path in s.files)
  }

  /** Rows and vectors are exactly those of the bytes `read` holds for each path. */
  ghost predicate SyncedWith(t: Tools, s: Index, read: map<string, string>) {
    && s.files.Keys <= read.Keys
    && (forall p :: p in s.files ==>
                      Explains(t, p, s.files[p], s.vectors, read[p]) && Complete(p, s.files[p], s.vectors, read[p]))
    && (forall k :: k in s.vectors ==> k.path in s.files)
  }

  /** The keys a pass writes for a path, and nothing outside it. */
  lemma {:induction false} FreshVectorsAt(t: Tools, desired: map<string, nat>, disk: Disk, p: string)
    requires p in desired && p in disk
    ensures forall k :: k in FreshVectors(t, desired, disk, p) ==> k.path == p
  {
    UpsertedKeys(p, FreshRow(t, desired, disk, p).language, disk[p], FreshRow(t, desired, disk, p).chunks);
  }

  /** One pass as seen from the row of one path that is still wanted. */
  lemma {:induction false} PassFileAt(t: Tools, s: Index, manifest: seq<ManifestEntry>, disk: Disk, p: string)
    requires p in Pass(t, s, manifest, disk).files
    ensures var desired, s' := Desired(t, manifest), Pass(t, s, manifest, disk);
            && p in desired
            && (if p in Changed(s.files, desired) && p in disk then s'.files[p] == FreshRow(t, desired, disk, p)
                else p in s.files && s'.files[p] == s.files[p])
  {
  }

  /** And from one point of such a path. */
  lemma {:induction false} PassKeyAt(t: Tools, s: Index, manifest: seq<ManifestEntry>, disk: Disk, k: PointKey)
    requires k.path in Pass(t, s, manifest, disk).files
    ensures var desired, v := Desired(t, manifest), Pass(t, s, manifest, disk).vectors;
            if k.path in Changed(s.files, desired) && k.path in disk then
              (k in v <==> k in FreshVectors(t, desired, disk, k.path))
              && (k in v ==> v[k] == FreshVectors(t, desired, disk, k.path)[k])
            else
              (k in v <==> k.path !in Changed(s.files, desired) && k in s.vectors) && (k in v ==> v[k] == s.vectors[k])
  {
  }

  lemma {:induction false} PassOwners(t: Tools, s: Index, manifest: seq<ManifestEntry>, disk: Disk)
    requires forall k :: k in s.vectors ==> k.path in s.files
    ensures forall k :: k in Pass(t, s, manifest, disk).vectors ==> k.path in Pass(t, s, manifest, disk).files
  {
  }

  /** A path's backing survives when its vectors are unchanged, or, but for completeness, cleared. */
  lemma {:induction false} SameBacking(t: Tools, p: string, row: FileRow, before: Vectors, after: Vectors,
                                       source: string, cleared: bool)
    requires Explains(t, p, row, before, source)
    requires forall k: PointKey :: k.path == p ==>
             (k in after <==> !cleared && k in before) && (k in after ==> after[k] == before[k])
    ensures Explains(t, p, row, after, source)
    ensures !cleared && Complete(p, row, before, source) ==> Complete(p, row, after, source)
  {
    UpsertedKeys(p, row.language, source, row.chunks);
  }

  /** A path indexed by this pass rests on the bytes just read, completely. */
  lemma {:induction false} FreshBacking(t: Tools, s: Index, manifest: seq<ManifestEntry>, disk: Disk, p: string)
    requires var desired := Desired(t, manifest); p in Changed(s.files, desired) && p in disk
    ensures var s' := Pass(t, s, manifest, disk);
            && p in s'.files && Explains(t, p, s'.files[p], s'.vectors, disk[p])
            && Complete(p, s'.files[p], s'.vectors, disk[p])
  {
    var desired, s' := Desired(t, manifest), Pass(t, s, manifest, disk);
    DesiredHasLanguage(t, manifest);
    PassFileAt(t, s, manifest, disk, p);
    FreshVectorsAt(t, desired, disk, p);
    forall k: PointKey | k.path == p
      ensures (k in s'.vectors <==> k in FreshVectors(t, desired, disk, p))
              && (k in s'.vectors ==> s'.vectors[k] == FreshVectors(t, desired, disk, p)[k])
    {
      PassKeyAt(t, s, manifest, disk, k);
    }
  }

  /** A path this pass did not index rests on what it rested on, completely unless its points were cleared. */
  lemma {:induction false} KeptBacking(t: Tools, s: Index, manifest: seq<ManifestEntry>, disk: Disk, p: string,
                                       source: string)
    requires p in Pass(t, s, manifest, disk).files && p in s.files && Explains(t, p, s.files[p], s.vectors, source)
    requires var desired := Desired(t, manifest); p !in Changed(s.files, desired) || p !in disk
    ensures var s' := Pass(t, s, manifest, disk);
            && Explains(t, p, s'.files[p], s'.vectors, source)
            && (p !in Changed(s.files, Desired(t, manifest)) && Complete(p, s.files[p], s.vectors, source) ==>
                  Complete(p, s'.files[p], s'.vectors, source))
  {
    PassFileAt(t, s, manifest, disk, p);
    forall k: PointKey | k.path == p { PassKeyAt(t, s, manifest, disk, k); }
    SameBacking(t, p, s.files[p], s.vectors, Pass(t, s, manifest, disk).vectors, source,
                p in Changed(s.files, Desired(t, manifest)));
  }

  /**
   * Whatever the manifest's hashes, and even with unreadable files: no vector survives a pass that does
   * not come from the bytes behind the stored row of its path.
   */
  lemma {:induction false} PassKeepsIncluded(t: Tools, s: Index, manifest: seq<ManifestEntry>, disk: Disk)
    requires Included(t, s)
    ensures Included(t, Pass(t, s, manifest, disk))
  {
    var s' := Pass(t, s, manifest, disk);
    forall p | p in s'.files
      ensures exists source :: Explains(t, p, s'.files[p], s'.vectors, source)
    {
      PassFileAt(t, s, manifest, disk, p);
      if p in Changed(s.files, Desired(t, manifest)) && p in disk {
        FreshBacking(t, s, manifest, disk, p);
      } else {
        var source :| Explains(t, p, s.files[p], s.vectors, source);
        KeptBacking(t, s, manifest, disk, p, source);
      }
    }
    PassOwners(t, s, manifest, disk);
  }

  /** The bytes each path was last indexed from, after one more pass. */
  function ReadAfter(t: Tools, s: Index, read: map<string, string>, manifest: seq<ManifestEntry>,
                     disk: Disk): map<string, string> {
    read + (map p | p in Changed(s.files, Desired(t, manifest)) && p in disk :: disk[p])
  }

  lemma {:induction false} PassKeepsSynced(t: Tools, s: Index, read: map<string, string>, manifest: seq<ManifestEntry>,
                                           disk: Disk)
    requires SyncedWith(t, s, read) && Readable(t, manifest, disk)
    ensures SyncedWith(t, Pass(t, s, manifest, disk), ReadAfter(t, s, read, manifest, disk))
  {
    var s', read' := Pass(t, s, manifest, disk), ReadAfter(t, s, read, manifest, disk);
    forall p | p in s'.files
      ensures p in read' && Explains(t, p, s'.files[p], s'.vectors, read'[p])
              && Complete(p, s'.files[p], s'.vectors, read'[p])
    {
      PassFileAt(t, s, manifest, disk, p);
      if p in Changed(s.files, Desired(t, manifest)) {
        FreshBacking(t, s, manifest, disk, p);
      } else {
        KeptBacking(t, s, manifest, disk, p, read[p]);
      }
    }
    PassOwners(t, s, manifest, disk);
  }

  // ---------------------------------------------------------------- what a pass stores

  /** The entry of a path that counts is its last one. */
  predicate LastEntry(manifest: seq<ManifestEntry>, p: string, i: nat) {
    && i < |manifest| && manifest[i].path == p
    && forall j :: i < j < |manifest| ==> manifest[j].path != p
  }

  /** A pass wants exactly the manifest's paths in a known language, with the hash of their last entry. */
  lemma {:induction false} WantedPaths(t: Tools, manifest: seq<ManifestEntry>, p: string)
    ensures p in Desired(t, manifest) <==> t.language(p).Some? && exists i: nat :: LastEntry(manifest, p, i)
    ensures forall i: nat :: LastEntry(manifest, p, i) && t.language(p).Some? ==>
                          p in Desired(t, manifest) && Desired(t, manifest)[p] == manifest[i].sha
    decreases |manifest|
  {
    if manifest != [] {
      var init, last := manifest[..|manifest| - 1], |manifest| - 1;
      WantedPaths(t, init, p);
      if manifest[last].path == p {
        assert LastEntry(manifest, p, last);
        assert forall i: nat :: LastEntry(manifest, p, i) ==> i == last;
      } else {
        forall i: nat
          ensures LastEntry(manifest, p, i) <==> LastEntry(init, p, i)
        {
        }
      }
    }
  }

  /** A row holds all of what parsing the bytes gives, chunks screened, and nothing of bytes that do not parse. */
  predicate HoldsParse(t: Tools, p: string, row: FileRow, source: string) {
    && t.language(p) == Some(row.language)
    && match t.parse(p, source)
       case None => row.symbols == [] && row.chunks == [] && row.references == []
       case Some(unit) =>
         && row.symbols == unit.symbols && row.references == unit.references && |row.chunks| == |unit.chunks|
         && forall i :: 0 <= i < |unit.chunks| ==>
              row.chunks[i] == unit.chunks[i].(suspect := t.screen(Content(source, unit.chunks[i])))
  }

  /** The text of a chunk: its bytes of the source, as far as there are any. */
  lemma ContentIsSlice(source: string, c: Chunk)
    ensures c.startByte <= c.endByte <= |source| ==> Content(source, c) == source[c.startByte..c.endByte]
    ensures c.startByte <= |source| < c.endByte ==> Content(source, c) == source[c.startByte..]
    ensures c.startByte >= c.endByte || c.startByte >= |source| ==> Content(source, c) == ""
  {
  }

  /** The path is new, or its stored hash is not the wanted one. */
  predicate IsStale(s: Index, desired: map<string, nat>, p: string) {
    p in desired && (p !in s.files || s.files[p].sha != desired[p])
  }

  /**
   * After a pass, the row of every stale path that could be read holds exactly what its bytes on disk parse to,
   * under the wanted hash; every other remaining row is the one from before.
   */
  lemma PassStoresParses(t: Tools, s: Index, manifest: seq<ManifestEntry>, disk: Disk, p: string)
    requires p in Pass(t, s, manifest, disk).files
    ensures var desired, row := Desired(t, manifest), Pass(t, s, manifest, disk).files[p];
            && p in desired
            && if IsStale(s, desired, p) && p in disk then row.sha == desired[p] && HoldsParse(t, p, row, disk[p])
               else p in s.files && row == s.files[p]
  {
    var desired := Desired(t, manifest);
    PassFileAt(t, s, manifest, disk, p);
    DesiredHasLanguage(t, manifest);
    if IsStale(s, desired, p) && p in disk { FreshHoldsParse(t, desired, disk, p); }
  }

  lemma FreshHoldsParse(t: Tools, desired: map<string, nat>, disk: Disk, p: string)
    requires p in desired && p in disk && t.language(p).Some?
    ensures var row := FreshRow(t, desired, disk, p); row.sha == desired[p] && HoldsParse(t, p, row, disk[p])
  {
  }

  /** Which paths have rows: the wanted ones that had one already or could be read. */
  lemma PassKeepsWanted(t: Tools, s: Index, manifest: seq<ManifestEntry>, disk: Disk, p: string)
    ensures p in Pass(t, s, manifest, disk).files <==>
            p in Desired(t, manifest) && (p in s.files || p in disk)
  {
  }

  /** The point of a first byte holds the last chunk that starts there, with its language and its text. */
  lemma {:induction false} LastChunkIsKept(path: string, language: nat, source: string, chunks: seq<Chunk>, i: nat)
    requires i < |chunks| && forall j :: i < j < |chunks| ==> chunks[j].startByte != chunks[i].startByte
    ensures var v, key := Upserted(path, language, source, chunks), PointKey(path, chunks[i].startByte);
            key in v && v[key] == VectorRecord(language, chunks[i], Content(source, chunks[i]))
    decreases |chunks|
  {
    if i < |chunks| - 1 { LastChunkIsKept(path, language, source, chunks[..|chunks| - 1], i); }
  }

  // ---------------------------------------------------------------- incremental against from scratch

  lemma {:induction false} SameVectors(a: Vectors, b: Vectors)
    requires forall k: PointKey :: (k in a <==> k in b) && (k in a ==> a[k] == b[k])
    ensures a == b
  {
  }

  /** Two byte strings a pass cannot tell apart: they parse alike, and their chunks hold the same text. */
  predicate Alike(t: Tools, p: string, sha: nat, a: string, b: string) {
    var x, y := RowFor(t, p, Language(t, p), sha, a), RowFor(t, p, Language(t, p), sha, b);
    x == y && FileVectors(p, x, a) == FileVectors(p, y, b)
  }

  /** The paths a pass leaves as they are: their hash in the manifest is the stored one. */
  function Kept(s: Index, desired: map<string, nat>): set<string> {
    set p | p in desired && p in s.files && s.files[p].sha == desired[p]
  }

  /** The points of one path, at its own bytes exactly those of its row. */
  lemma {:induction false} SyncedKey(t: Tools, s: Index, read: map<string, string>, k: PointKey)
    requires SyncedWith(t, s, read) && k.path in s.files
    ensures var own := FileVectors(k.path, s.files[k.path], read[k.path]);
            (k in s.vectors <==> k in own) && (k in s.vectors ==> s.vectors[k] == own[k])
  {
    assert Explains(t, k.path, s.files[k.path], s.vectors, read[k.path]);
  }

  lemma {:induction false} PassFiles(t: Tools, s: Index, manifest: seq<ManifestEntry>, disk: Disk)
    requires Readable(t, manifest, disk)
    ensures var files := Pass(t, s, manifest, disk).files;
            && files.Keys == Desired(t, manifest).Keys
            && forall p :: p in files ==> files[p].sha == Desired(t, manifest)[p]
  {
  }

  /** What a pass from nothing holds at one path. */
  lemma {:induction false} ScratchAt(t: Tools, manifest: seq<ManifestEntry>, disk: Disk, p: string)
    requires Readable(t, manifest, disk) && p in Desired(t, manifest)
    ensures var s := FromScratch(t, manifest, disk);
            && p in s.files && s.files[p] == FreshRow(t, Desired(t, manifest), disk, p)
            && Explains(t, p, s.files[p], s.vectors, disk[p]) && Complete(p, s.files[p], s.vectors, disk[p])
  {
    FreshBacking(t, EMPTY, manifest, disk, p);
    PassFileAt(t, EMPTY, manifest, disk, p);
  }

  /** Two indexes hold the same at one path. */
  ghost predicate AgreeAt(a: Index, b: Index, p: string) {
    && p in a.files && p in b.files && a.files[p] == b.files[p]
    && forall k: PointKey :: k.path == p ==>
         (k in a.vectors <==> k in b.vectors) && (k in a.vectors ==> a.vectors[k] == b.vectors[k])
  }

  lemma {:induction false} AgreeEverywhere(a: Index, b: Index)
    requires a.files.Keys == b.files.Keys
    requires forall k :: k in a.vectors ==> k.path in a.files
    requires forall k :: k in b.vectors ==> k.path in b.files
    requires forall p :: p in a.files ==> AgreeAt(a, b, p)
    ensures a == b
  {
    forall p | p in a.files
      ensures a.files[p] == b.files[p]
    {
      assert AgreeAt(a, b, p);
    }
    forall k: PointKey
      ensures (k in a.vectors <==> k in b.vectors) && (k in a.vectors ==> a.vectors[k] == b.vectors[k])
    {
      assert k.path in a.files ==> AgreeAt(a, b, k.path);
    }
    assert a.files == b.files;
    SameVectors(a.vectors, b.vectors);
  }

  /** Vectors that hold `own` and `anew` at one path agree there exactly when those are equal. */
  lemma {:induction false} PointsAgree(p: string, own: Vectors, anew: Vectors, x: Vectors, y: Vectors)
    requires forall k :: k in own ==> k.path == p
    requires forall k :: k in anew ==> k.path == p
    requires forall k: PointKey :: k.path == p ==> (k in x <==> k in own) && (k in own ==> x[k] == own[k])
    requires forall k: PointKey :: k.path == p ==> (k in y <==> k in anew) && (k in anew ==> y[k] == anew[k])
    ensures own == anew <==> forall k: PointKey :: k.path == p ==> (k in x <==> k in y) && (k in x ==> x[k] == y[k])
  {
    if forall k: PointKey :: k.path == p ==> (k in x <==> k in y) && (k in x ==> x[k] == y[k]) {
      SameVectors(own, anew);
    }
  }

  /** The rows of a kept path on either side. */
  lemma {:induction false} KeptRows(t: Tools, s: Index, read: map<string, string>, manifest: seq<ManifestEntry>,
                                    disk: Disk, p: string)
    requires SyncedWith(t, s, read) && Readable(t, manifest, disk) && p in Kept(s, Desired(t, manifest))
    ensures var a, b, sha := Pass(t, s, manifest, disk), FromScratch(t, manifest, disk), s.files[p].sha;
            && p in a.files && p in b.files && a.files[p] == s.files[p]
            && a.files[p] == RowFor(t, p, Language(t, p), sha, read[p])
            && b.files[p] == RowFor(t, p, Language(t, p), sha, disk[p])
  {
    ScratchAt(t, manifest, disk, p);
    PassFiles(t, s, manifest, disk);
    PassFileAt(t, s, manifest, disk, p);
    assert Explains(t, p, s.files[p], s.vectors, read[p]);
  }

  /** `v` holds at path `p` exactly the points of its row over `source`. */
  ghost predicate HoldsPoints(p: string, row: FileRow, source: string, v: Vectors) {
    var own := FileVectors(p, row, source);
    forall k: PointKey :: k.path == p ==> (k in v <==> k in own) && (k in own ==> v[k] == own[k])
  }

  lemma {:induction false} RowsAgree(p: string, x: FileRow, y: FileRow, u: string, v: string, a: Index, b: Index)
    requires p in a.files && p in b.files && a.files[p] == x && b.files[p] == y
    requires HoldsPoints(p, x, u, a.vectors) && HoldsPoints(p, y, v, b.vectors)
    ensures x == y && FileVectors(p, x, u) == FileVectors(p, y, v) <==> AgreeAt(a, b, p)
  {
    UpsertedKeys(p, x.language, u, x.chunks);
    UpsertedKeys(p, y.language, v, y.chunks);
    PointsAgree(p, FileVectors(p, x, u), FileVectors(p, y, v), a.vectors, b.vectors);
  }

  /** The points of a kept path on either side. */
  lemma {:induction false} KeptPoints(t: Tools, s: Index, read: map<string, string>, manifest: seq<ManifestEntry>,
                                      disk: Disk, p: string)
    requires SyncedWith(t, s, read) && Readable(t, manifest, disk) && p in Kept(s, Desired(t, manifest))
    requires var a, b := Pass(t, s, manifest, disk), FromScratch(t, manifest, disk);
             p in a.files && p in b.files && a.files[p] == s.files[p]
    ensures var a, b := Pass(t, s, manifest, disk), FromScratch(t, manifest, disk);
            HoldsPoints(p, a.files[p], read[p], a.vectors) && HoldsPoints(p, b.files[p], disk[p], b.vectors)
  {
    ScratchAt(t, manifest, disk, p);
    forall k: PointKey | k.path == p
      ensures var a := Pass(t, s, manifest, disk); var own := FileVectors(p, s.files[p], read[p]);
              (k in a.vectors <==> k in own) && (k in own ==> a.vectors[k] == own[k])
    {
      PassKeyAt(t, s, manifest, disk, k);
      SyncedKey(t, s, read, k);
    }
  }

  /**
   * At one kept path, a pass agrees with one from nothing exactly when the bytes behind the row and on disk are alike.
   */
  lemma {:induction false} KeptPathAgrees(t: Tools, s: Index, read: map<string, string>, manifest: seq<ManifestEntry>,
                                          disk: Disk, p: string)
    requires SyncedWith(t, s, read) && Readable(t, manifest, disk) && p in Kept(s, Desired(t, manifest))
    ensures Alike(t, p, s.files[p].sha, read[p], disk[p]) <==>
            AgreeAt(Pass(t, s, manifest, disk), FromScratch(t, manifest, disk), p)
  {
    var a, b := Pass(t, s, manifest, disk), FromScratch(t, manifest, disk);
    KeptRows(t, s, read, manifest, disk, p);
    KeptPoints(t, s, read, manifest, disk, p);
    RowsAgree(p, a.files[p], b.files[p], read[p], disk[p], a, b);
  }

  /** At a path the pass indexed, there is no difference. */
  lemma {:induction false} FreshPathAgrees(t: Tools, s: Index, manifest: seq<ManifestEntry>, disk: Disk, p: string)
    requires Readable(t, manifest, disk) && p in Changed(s.files, Desired(t, manifest))
    ensures AgreeAt(Pass(t, s, manifest, disk), FromScratch(t, manifest, disk), p)
  {
    var a, b := Pass(t, s, manifest, disk), FromScratch(t, manifest, disk);
    PassFiles(t, s, manifest, disk);
    PassFiles(t, EMPTY, manifest, disk);
    PassFileAt(t, s, manifest, disk, p);
    PassFileAt(t, EMPTY, manifest, disk, p);
    forall k: PointKey | k.path == p
      ensures (k in a.vectors <==> k in b.vectors) && (k in a.vectors ==> a.vectors[k] == b.vectors[k])
    {
      PassKeyAt(t, s, manifest, disk, k);
      PassKeyAt(t, EMPTY, manifest, disk, k);
    }
  }

  /** Every path the pass keeps unread has on disk bytes like those its row was indexed from. */
  predicate KeptAlike(t: Tools, s: Index, read: map<string, string>, desired: map<string, nat>, disk: Disk) {
    forall p :: p in Kept(s, desired) && p in read && p in disk ==> Alike(t, p, s.files[p].sha, read[p], disk[p])
  }

  lemma {:induction false} PathAgrees(t: Tools, s: Index, read: map<string, string>, manifest: seq<ManifestEntry>,
                                      disk: Disk, p: string)
    requires SyncedWith(t, s, read) && Readable(t, manifest, disk) && p in Desired(t, manifest)
    requires KeptAlike(t, s, read, Desired(t, manifest), disk)
    ensures AgreeAt(Pass(t, s, manifest, disk), FromScratch(t, manifest, disk), p)
  {
    if p in Kept(s, Desired(t, manifest)) {
      KeptPathAgrees(t, s, read, manifest, disk, p);
    } else {
      FreshPathAgrees(t, s, manifest, disk, p);
    }
  }

  lemma {:induction false} AlikeGivesFresh(t: Tools, s: Index, read: map<string, string>, manifest: seq<ManifestEntry>,
                                           disk: Disk)
    requires SyncedWith(t, s, read) && Readable(t, manifest, disk)
    requires KeptAlike(t, s, read, Desired(t, manifest), disk)
    ensures Pass(t, s, manifest, disk) == FromScratch(t, manifest, disk)
  {
    var a, b := Pass(t, s, manifest, disk), FromScratch(t, manifest, disk);
    PassOwners(t, s, manifest, disk);
    PassOwners(t, EMPTY, manifest, disk);
    PassFiles(t, s, manifest, disk);
    PassFiles(t, EMPTY, manifest, disk);
    forall p | p in a.files
      ensures AgreeAt(a, b, p)
    {
      PathAgrees(t, s, read, manifest, disk, p);
    }
    AgreeEverywhere(a, b);
  }

  lemma {:induction false} FreshIsAlike(t: Tools, s: Index, read: map<string, string>, manifest: seq<ManifestEntry>,
                                        disk: Disk, p: string)
    requires SyncedWith(t, s, read) && Readable(t, manifest, disk) && p in Kept(s, Desired(t, manifest))
    requires Pass(t, s, manifest, disk) == FromScratch(t, manifest, disk)
    ensures Alike(t, p, s.files[p].sha, read[p], disk[p])
  {
    ScratchAt(t, manifest, disk, p);
    KeptPathAgrees(t, s, read, manifest, disk, p);
  }

  /**
   * A pass over readable files, from an index in step with the bytes it was built from, gives what a pass
   * from nothing gives exactly when every path it keeps unread has on disk bytes like those it was indexed
   * from. Nothing is assumed of the manifest's hashes.
   */
  lemma {:induction false} PassEqualsFreshIff(t: Tools, s: Index, read: map<string, string>,
                                              manifest: seq<ManifestEntry>, disk: Disk)
    requires SyncedWith(t, s, read) && Readable(t, manifest, disk)
    ensures Pass(t, s, manifest, disk) == FromScratch(t, manifest, disk) <==>
            KeptAlike(t, s, read, Desired(t, manifest), disk)
  {
    if KeptAlike(t, s, read, Desired(t, manifest), disk) {
      AlikeGivesFresh(t, s, read, manifest, disk);
    }
    if Pass(t, s, manifest, disk) == FromScratch(t, manifest, disk) {
      forall p | p in Kept(s, Desired(t, manifest)) { FreshIsAlike(t, s, read, manifest, disk, p); }
    }
  }

  /** What is in step with given bytes, paths and hashes is determined by them. */
  lemma {:induction false} SyncedIsUnique(t: Tools, a: Index, b: Index, read: map<string, string>)
    requires SyncedWith(t, a, read) && SyncedWith(t, b, read)
    requires a.files.Keys == b.files.Keys && forall p :: p in a.files ==> a.files[p].sha == b.files[p].sha
    ensures a == b
  {
    forall p | p in a.files
      ensures AgreeAt(a, b, p)
    {
      SameRows(t, a, b, read, p);
      forall k: PointKey | k.path == p
        ensures (k in a.vectors <==> k in b.vectors) && (k in a.vectors ==> a.vectors[k] == b.vectors[k])
      {
        SyncedKey(t, a, read, k);
        SyncedKey(t, b, read, k);
      }
    }
    AgreeEverywhere(a, b);
  }

  lemma {:induction false} SameRows(t: Tools, a: Index, b: Index, read: map<string, string>, p: string)
    requires SyncedWith(t, a, read) && SyncedWith(t, b, read)
    requires p in a.files && p in b.files && a.files[p].sha == b.files[p].sha
    ensures a.files[p] == b.files[p]
  {
    assert Explains(t, p, a.files[p], a.vectors, read[p]) && Explains(t, p, b.files[p], b.vectors, read[p]);
  }

  // ---------------------------------------------------------------- any number of passes

  datatype PassInput = PassInput(manifest: seq<ManifestEntry>, disk: Disk)

  function Passes(t: Tools, inputs: seq<PassInput>): Index {
    if inputs == [] then EMPTY
    else Pass(t, Passes(t, inputs[..|inputs| - 1]), inputs[|inputs| - 1].manifest, inputs[|inputs| - 1].disk)
  }

  /** The bytes each path was last indexed from. */
  function LastRead(t: Tools, inputs: seq<PassInput>): map<string, string> {
    if inputs == [] then map[]
    else
      var before, last := inputs[..|inputs| - 1], inputs[|inputs| - 1];
      ReadAfter(t, Passes(t, before), LastRead(t, before), last.manifest, last.disk)
  }

  lemma {:induction false} PassesSynced(t: Tools, inputs: seq<PassInput>)
    requires forall i :: i in inputs ==> Readable(t, i.manifest, i.disk)
    ensures SyncedWith(t, Passes(t, inputs), LastRead(t, inputs))
  {
    if inputs != [] {
      var before, last := inputs[..|inputs| - 1], inputs[|inputs| - 1];
      assert last in inputs;
      PassesSynced(t, before);
      PassKeepsSynced(t, Passes(t, before), LastRead(t, before), last.manifest, last.disk);
    }
  }

  /** Some pass read these bytes of the path, and wanted it with this hash. */
  predicate ReadIn(t: Tools, inputs: seq<PassInput>, p: string, row: FileRow) {
    exists i :: i in inputs && p in i.disk && p in Desired(t, i.manifest) && Desired(t, i.manifest)[p] == row.sha
                && HoldsParse(t, p, row, i.disk[p])
  }

  /** After any passes, every row holds exactly what bytes that some pass read parse to. */
  lemma {:induction false} RowsHoldParses(t: Tools, inputs: seq<PassInput>, p: string)
    requires p in Passes(t, inputs).files
    ensures ReadIn(t, inputs, p, Passes(t, inputs).files[p])
    decreases |inputs|
  {
    var before, last := inputs[..|inputs| - 1], inputs[|inputs| - 1];
    assert inputs == before + [last];
    var s, row := Passes(t, before), Passes(t, inputs).files[p];
    PassStoresParses(t, s, last.manifest, last.disk, p);
    if IsStale(s, Desired(t, last.manifest), p) && p in last.disk {
      assert last in inputs;
    } else {
      RowsHoldParses(t, before, p);
      var i :| i in before && p in i.disk && p in Desired(t, i.manifest) && Desired(t, i.manifest)[p] == row.sha
               && HoldsParse(t, p, row, i.disk[p]);
      assert i in inputs;
    }
  }

  /**
   * After any sequence of incremental passes over arbitrary manifests with readable files, store and
   * vectors equal what one pass from nothing over the last manifest gives exactly when, at every path the
   * last pass kept unread, the bytes on disk are like those the path was last indexed from.
   */
  lemma {:induction false} IncrementalEqualsFreshIff(t: Tools, before: seq<PassInput>, last: PassInput)
    requires forall i :: i in before + [last] ==> Readable(t, i.manifest, i.disk)
    ensures var s, read := Passes(t, before), LastRead(t, before);
            Passes(t, before + [last]) == FromScratch(t, last.manifest, last.disk) <==>
            KeptAlike(t, s, read, Desired(t, last.manifest), last.disk)
  {
    var all := before + [last];
    assert all[..|all| - 1] == before && last in all;
    assert forall i :: i in before ==> i in all;
    PassesSynced(t, before);
    PassEqualsFreshIff(t, Passes(t, before), LastRead(t, before), last.manifest, last.disk);
  }

  /** With hashes of the bytes read, a row's hash is that of the bytes it was indexed from. */
  lemma {:induction false} HashesOfRead(t: Tools, inputs: seq<PassInput>)
    requires forall i :: i in inputs ==> Consistent(t, i.manifest, i.disk) && Readable(t, i.manifest, i.disk)
    ensures var s, read := Passes(t, inputs), LastRead(t, inputs);
            s.files.Keys <= read.Keys && forall p :: p in s.files ==> s.files[p].sha == t.hash(read[p])
  {
    if inputs != [] {
      var before, last := inputs[..|inputs| - 1], inputs[|inputs| - 1];
      assert last in inputs;
      HashesOfRead(t, before);
      forall p | p in Passes(t, inputs).files
        ensures p in LastRead(t, inputs) && Passes(t, inputs).files[p].sha == t.hash(LastRead(t, inputs)[p])
      {
        PassFileAt(t, Passes(t, before), last.manifest, last.disk, p);
      }
    }
  }

  /** So where every manifest has the hashes of the bytes its pass reads, incremental and from scratch agree. */
  lemma {:induction false} IncrementalEqualsFresh(t: Tools, before: seq<PassInput>, last: PassInput)
    requires Injective(t.hash)
    requires forall i :: i in before + [last] ==> Consistent(t, i.manifest, i.disk) && Readable(t, i.manifest, i.disk)
    ensures Passes(t, before + [last]) == FromScratch(t, last.manifest, last.disk)
  {
    assert last in before + [last];
    assert forall i :: i in before ==> i in before + [last];
    HashesOfRead(t, before);
    var s, read := Passes(t, before), LastRead(t, before);
    forall p | p in Kept(s, Desired(t, last.manifest))
      ensures Alike(t, p, s.files[p].sha, read[p], last.disk[p])
    {
      assert t.hash(read[p]) == t.hash(last.disk[p]);
    }
    IncrementalEqualsFreshIff(t, before, last);
  }

  /**
   * Where a manifest's hash is not that of the bytes read, the wrong bytes stay: a workspace indexed while
   * its files were edited and indexed again after they were put back, under one manifest, keeps the rows
   * and vectors of the edited bytes, and differs from a fresh index at every file that does not parse alike.
   */
  lemma {:induction false} StaleBytesStay(t: Tools, manifest: seq<ManifestEntry>, edited: Disk, right: Disk)
    requires Readable(t, manifest, edited) && Readable(t, manifest, right)
    ensures var first := FromScratch(t, manifest, edited); var again := Pass(t, first, manifest, right);
            && again == first
            && (again == FromScratch(t, manifest, right) <==>
                forall p :: p in Desired(t, manifest) && p in edited && p in right ==>
                              Alike(t, p, Desired(t, manifest)[p], edited[p], right[p]))
  {
    var first := FromScratch(t, manifest, edited);
    PassFiles(t, EMPTY, manifest, edited);
    UnchangedPass(t, first, manifest, right);
    ScratchSynced(t, manifest, edited);
    PassEqualsFreshIff(t, first, edited, manifest, right);
  }

  lemma {:induction false} ScratchSynced(t: Tools, manifest: seq<ManifestEntry>, disk: Disk)
    requires Readable(t, manifest, disk)
    ensures SyncedWith(t, FromScratch(t, manifest, disk), disk)
    ensures Kept(FromScratch(t, manifest, disk), Desired(t, manifest)) == Desired(t, manifest).Keys
  {
    PassFiles(t, EMPTY, manifest, disk);
    PassOwners(t, EMPTY, manifest, disk);
    forall p | p in Desired(t, manifest) { ScratchAt(t, manifest, disk, p); }
  }

  /** With files that come and go unreadably, and whatever the hashes, passes never contradict themselves. */
  lemma {:induction false} PassesIncluded(t: Tools, inputs: seq<PassInput>)
    ensures Included(t, Passes(t, inputs))
  {
    if inputs != [] {
      var last := inputs[|inputs| - 1];
      PassesIncluded(t, inputs[..|inputs| - 1]);
      PassKeepsIncluded(t, Passes(t, inputs[..|inputs| - 1]), last.manifest, last.disk);
    }
  }

  /** Read off a store: every vector is a stored chunk of its own path, at its own first byte. */
  lemma {:induction false} VectorsAreStoredChunks(t: Tools, s: Index, k: PointKey)
    requires Included(t, s) && k in s.vectors
    ensures k.path in s.files && s.vectors[k].chunk in s.files[k.path].chunks
            && s.vectors[k].chunk.startByte == k.startByte
  {
    var row := s.files[k.path];
    var source :| Explains(t, k.path, row, s.vectors, source);
    UpsertedKeys(k.path, row.language, source, row.chunks);
  }

  // ---------------------------------------------------------------- crashes

  /** What a crashed pass leaves of the vectors: anything at all, but only under touched paths. */
  ghost predicate CrashLeaves(t: Tools, s: Index, manifest: seq<ManifestEntry>, after: Vectors) {
    var touched := Touched(s.files, Desired(t, manifest));
    forall k: PointKey :: k.path !in touched ==>
        (k in after <==> k in s.vectors) && (k in after ==> after[k] == s.vectors[k])
  }

  /** Clearing the touched paths and upserting some of the changed files is such a remainder. */
  lemma {:induction false} CrashMidUpsert(t: Tools, s: Index, manifest: seq<ManifestEntry>, disk: Disk,
                                          done: set<string>)
    requires done <= Changed(s.files, Desired(t, manifest))
    ensures CrashLeaves(t, s, manifest,
                        VectorsAfter(t, s.vectors, Touched(s.files, Desired(t, manifest)), Desired(t, manifest), disk,
                                     done))
  {
  }

  /**
   * Crashes, any number of them, then an uninterrupted pass over the same manifest and contents: the
   * result is that of the uninterrupted pass alone, although no vector write was rolled back.
   */
  lemma {:induction false} CrashesAreInvisible(t: Tools, s: Index, manifest: seq<ManifestEntry>, disk: Disk,
                                               wrecks: seq<Vectors>)
    requires CrashChain(t, s, manifest, wrecks)
    ensures CrashLeaves(t, s, manifest, LastWreck(s.vectors, wrecks))
    ensures Pass(t, s.(vectors := LastWreck(s.vectors, wrecks)), manifest, disk) == Pass(t, s, manifest, disk)
    decreases |wrecks|
  {
    if wrecks != [] {
      CrashesAreInvisible(t, s, manifest, disk, wrecks[..|wrecks| - 1]);
    }
    RepairedByPass(t, s, LastWreck(s.vectors, wrecks), manifest, disk);
  }

  /** The vectors the next pass will find. */
  function LastWreck(vectors: Vectors, wrecks: seq<Vectors>): Vectors {
    if wrecks == [] then vectors else wrecks[|wrecks| - 1]
  }

  /** Each pass starts from the rolled-back store and the vectors the crash before it left. */
  ghost predicate CrashChain(t: Tools, s: Index, manifest: seq<ManifestEntry>, wrecks: seq<Vectors>)
    decreases |wrecks|
  {
    wrecks != [] ==>
      var before := wrecks[..|wrecks| - 1];
      && CrashChain(t, s, manifest, before)
      && CrashLeaves(t, s.(vectors := LastWreck(s.vectors, before)), manifest, wrecks[|wrecks| - 1])
  }

  lemma {:induction false} RepairedKey(t: Tools, s: Index, after: Vectors, manifest: seq<ManifestEntry>, disk: Disk,
                                       k: PointKey)
    requires CrashLeaves(t, s, manifest, after)
    ensures var a, b := Pass(t, s.(vectors := after), manifest, disk).vectors, Pass(t, s, manifest, disk).vectors;
            (k in a <==> k in b) && (k in a ==> a[k] == b[k])
  {
  }

  lemma {:induction false} RepairedByPass(t: Tools, s: Index, after: Vectors, manifest: seq<ManifestEntry>, disk: Disk)
    requires CrashLeaves(t, s, manifest, after)
    ensures Pass(t, s.(vectors := after), manifest, disk) == Pass(t, s, manifest, disk)
  {
    var a, b := Pass(t, s.(vectors := after), manifest, disk).vectors, Pass(t, s, manifest, disk).vectors;
    forall k: PointKey
      ensures (k in a <==> k in b) && (k in a ==> a[k] == b[k])
    {
      RepairedKey(t, s, after, manifest, disk, k);
    }
    SameVectors(a, b);
  }

  /**
   * A crash followed by a pass over any other manifest: the vectors come out right exactly when the
   * crash left every path the second pass does not touch as it was.
   */
  lemma {:induction false} CrashThenOtherManifest(t: Tools, s: Index, after: Vectors, manifest: seq<ManifestEntry>,
                                                  disk: Disk)
    ensures Pass(t, s.(vectors := after), manifest, disk) == Pass(t, s, manifest, disk)
       <==> CrashLeaves(t, s, manifest, after)
  {
    if CrashLeaves(t, s, manifest, after) {
      RepairedByPass(t, s, after, manifest, disk);
    } else {
      var touched := Touched(s.files, Desired(t, manifest));
      var k: PointKey :| k.path !in touched
                         && !((k in after <==> k in s.vectors) && (k in after ==> after[k] == s.vectors[k]));
      KeptByPass(t, s, after, manifest, disk, k);
      KeptByPass(t, s, s.vectors, manifest, disk, k);
      assert s.(vectors := s.vectors) == s;
    }
  }

  lemma {:induction false} KeptByPass(t: Tools, s: Index, vectors: Vectors, manifest: seq<ManifestEntry>, disk: Disk,
                                      k: PointKey)
    requires k.path !in Touched(s.files, Desired(t, manifest))
    ensures var v := Pass(t, s.(vectors := vectors), manifest, disk).vectors;
            (k in v <==> k in vectors) && (k in v ==> v[k] == vectors[k])
  {
  }

  /** A pass that finds every hash as stored writes nothing, whatever the vectors are. */
  lemma {:induction false} UnchangedPass(t: Tools, s: Index, manifest: seq<ManifestEntry>, disk: Disk)
    requires Desired(t, manifest).Keys == s.files.Keys
    requires forall p :: p in s.files ==> s.files[p].sha == Desired(t, manifest)[p]
    ensures Pass(t, s, manifest, disk) == s
  {
    var touched := Touched(s.files, Desired(t, manifest));
    assert touched == {};
    forall k: PointKey
      ensures var v := Pass(t, s, manifest, disk).vectors;
              (k in v <==> k in s.vectors) && (k in v ==> v[k] == s.vectors[k])
    {
      KeptByPass(t, s, s.vectors, manifest, disk, k);
      assert s.(vectors := s.vectors) == s;
    }
    SameVectors(Pass(t, s, manifest, disk).vectors, s.vectors);
    assert Pass(t, s, manifest, disk).files == s.files;
  }

  /** The vectors a pass leaves behind when it crashes after its last upsert, with its store rolled back. */
  function Wreck(t: Tools, s: Index, manifest: seq<ManifestEntry>, disk: Disk): Vectors {
    var now := Desired(t, manifest);
    VectorsAfter(t, s.vectors, Touched(s.files, now), now, disk, Changed(s.files, now))
  }

  /** A pass over the manifest the store was built from changes nothing after such a crash. */
  lemma {:induction false} RevertAfterCrash(t: Tools, s: Index, original: seq<ManifestEntry>,
                                            edited: seq<ManifestEntry>,
                                            disk: Disk, reverted: Disk)
    requires Desired(t, original).Keys == s.files.Keys
    requires forall p :: p in s.files ==> s.files[p].sha == Desired(t, original)[p]
    ensures CrashLeaves(t, s, edited, Wreck(t, s, edited, disk))
    ensures Pass(t, s.(vectors := Wreck(t, s, edited, disk)), original, reverted) ==
            s.(vectors := Wreck(t, s, edited, disk))
  {
    CrashMidUpsert(t, s, edited, disk, Changed(s.files, Desired(t, edited)));
    UnchangedPass(t, s.(vectors := Wreck(t, s, edited, disk)), original, reverted);
  }

  /**
   * So a crash while a file held new content, followed by a pass after the file was reverted, leaves the new
   * content's vectors behind: the store says nothing changed, and nothing is cleared. Where the new content
   * had a chunk the reverted row does not have, a vector contradicts the store.
   */
  lemma {:induction false} RevertAfterCrashKeepsGhost(t: Tools, s: Index, original: seq<ManifestEntry>,
                                                      edited: seq<ManifestEntry>,
                                                      disk: Disk, reverted: Disk, k: PointKey)
    requires Desired(t, original).Keys == s.files.Keys
    requires forall p :: p in s.files ==> s.files[p].sha == Desired(t, original)[p]
    requires k.path in Changed(s.files, Desired(t, edited)) && k.path in disk
    requires k in FreshVectors(t, Desired(t, edited), disk, k.path)
    ensures var after := Pass(t, s.(vectors := Wreck(t, s, edited, disk)), original, reverted);
            var ghostly := FreshVectors(t, Desired(t, edited), disk, k.path)[k];
            && after.files == s.files && k in after.vectors && after.vectors[k] == ghostly
            && (k.path !in s.files || ghostly.chunk !in s.files[k.path].chunks ==> !Included(t, after))
  {
    RevertAfterCrash(t, s, original, edited, disk, reverted);
    var after := s.(vectors := Wreck(t, s, edited, disk));
    if Included(t, after) { VectorsAreStoredChunks(t, after, k); }
  }

  /** Where a path has points depends on its row, not on the bytes it was indexed from. */
  lemma {:induction false} SamePoints(t: Tools, s: Index, read: map<string, string>, s': Index,
                                      other: map<string, string>, k: PointKey)
    requires SyncedWith(t, s, read) && SyncedWith(t, s', other) && s.files == s'.files && k in s.vectors
    ensures k in s'.vectors
  {
    var row := s.files[k.path];
    assert Explains(t, k.path, row, s.vectors, read[k.path]);
    UpsertedKeys(k.path, row.language, read[k.path], row.chunks);
    UpsertedKeys(k.path, row.language, other[k.path], row.chunks);
    var chunk := s.vectors[k].chunk;
    assert PointKey(k.path, chunk.startByte) == k;
  }

  lemma {:induction false} WreckLosesPoint(t: Tools, s: Index, edited: seq<ManifestEntry>, disk: Disk, lost: PointKey)
    requires lost.path in Touched(s.files, Desired(t, edited))
    requires lost.path in Changed(s.files, Desired(t, edited)) && lost.path in disk ==>
               lost !in FreshVectors(t, Desired(t, edited), disk, lost.path)
    ensures lost !in Wreck(t, s, edited, disk)
  {
  }

  /** A point of a touched path that the crashed content lacks stays missing, so no bytes are in step with the store. */
  lemma {:induction false} RevertAfterCrashLosesPoint(t: Tools, s: Index, read: map<string, string>,
                                                      original: seq<ManifestEntry>, edited: seq<ManifestEntry>,
                                                      disk: Disk, reverted: Disk, lost: PointKey)
    requires SyncedWith(t, s, read) && lost in s.vectors
    requires Desired(t, original).Keys == s.files.Keys
    requires forall p :: p in s.files ==> s.files[p].sha == Desired(t, original)[p]
    requires lost.path in Touched(s.files, Desired(t, edited))
    requires lost.path in Changed(s.files, Desired(t, edited)) && lost.path in disk ==>
               lost !in FreshVectors(t, Desired(t, edited), disk, lost.path)
    ensures var after := Pass(t, s.(vectors := Wreck(t, s, edited, disk)), original, reverted);
            lost !in after.vectors && forall other :: !SyncedWith(t, after, other)
  {
    RevertAfterCrash(t, s, original, edited, disk, reverted);
    var after := s.(vectors := Wreck(t, s, edited, disk));
    WreckLosesPoint(t, s, edited, disk, lost);
    forall other
      ensures !SyncedWith(t, after, other)
    {
      if SyncedWith(t, after, other) { SamePoints(t, s, read, after, other, lost); }
    }
  }
}
