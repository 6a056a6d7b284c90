/** The per-tenant vector store: a tenant's HNSW index and the metadata list
    parallel to it, resolved through three tiers (process cache, local files,
    remote object store), saved to all of them after every insert, and
    searched through a nearest-neighbour oracle.

    The index is modelled by its dimension and its vectors in insertion
    order (vector `i` has internal id `i`); the graph itself and the search
    it performs are left abstract. Each storage step that can fail (a local
    write, an upload, a download) takes a success flag. */
module VectorStore {
  import opened Wrappers
  import opened PyValues

  /** Dimension of an index made by `create_index()` with no argument. */
  const DefaultDimension: int := 1536

  /** Neighbours per HNSW node; recorded only, the graph is not modelled. */
  const HnswNeighbours: int := 32

  type Vector = seq<real>

  /** A FAISS index: its dimension `d` and the vectors added so far. */
  datatype Index = Index(dim: int, vectors: seq<Vector>)

  /** What the store keeps per tenant: the index and its metadata list. */
  datatype Snapshot = Snapshot(index: Index, metadata: seq<Record>)

  /** The three tiers, per tenant id. The local and remote tiers hold the
      index file and the metadata file separately, since each is written
      and fetched on its own. `mock` is the `USE_MOCK_EMBEDDINGS` switch. */
  datatype Store = Store(
    mock: bool,
    cache: map<string, Snapshot>,
    localIndex: map<string, Index>,
    localMeta: map<string, seq<Record>>,
    remoteIndex: map<string, Index>,
    remoteMeta: map<string, seq<Record>>)

  /** The exceptions the store raises. */
  datatype StoreError =
    | DownloadFailed     // remote fetch of either blob failed (re-raised)
    | WriteFailed        // writing a local file failed
    | UploadFailed       // uploading a blob failed
    | EmptyBatch         // `vectors.shape[1]` of an empty array: IndexError
    | RaggedBatch        // rows of different lengths: numpy raises ValueError
    | DimensionMismatch  // ValueError("... dim mismatch ...")

  /** Whether each remote fetch of `load_index` succeeds. */
  datatype LoadIo = LoadIo(indexDownloadOk: bool, metaDownloadOk: bool)

  /** Whether each of the four writes of `save_index` succeeds. */
  datatype SaveIo = SaveIo(indexWriteOk: bool, metaWriteOk: bool,
                           indexUploadOk: bool, metaUploadOk: bool)

  predicate SaveSucceeds(io: SaveIo) {
    io.indexWriteOk && io.metaWriteOk && io.indexUploadOk && io.metaUploadOk
  }

  /** An operation's result together with the store it leaves behind. */
  datatype StoreOutcome<T> = StoreOutcome(store: Store, result: Result<T, StoreError>)

  /** The alignment invariant: one metadata record per vector. */
  predicate Aligned(s: Snapshot) {
    |s.index.vectors| == |s.metadata|
  }

  /** Every cached snapshot is aligned. */
  predicate CacheAligned(st: Store) {
    forall c :: c in st.cache ==> Aligned(st.cache[c])
  }

  /** The tenant's local and remote file pairs, where both files exist, are
      aligned. */
  predicate FilesAligned(st: Store, c: string) {
    && (c in st.localIndex && c in st.localMeta ==> |st.localIndex[c].vectors| == |st.localMeta[c]|)
    && (c in st.remoteIndex && c in st.remoteMeta ==> |st.remoteIndex[c].vectors| == |st.remoteMeta[c]|)
  }

  /** `create_index(dimension)`: an empty index. */
  function CreateIndex(dimension: int): (ix: Index)
    ensures ix.dim == dimension && |ix.vectors| == 0
  {
    Index(dimension, [])
  }

  /** The pair a tenant starts from: an empty default-dimension index with
      no metadata. */
  function EmptySnapshot(): (s: Snapshot)
    ensures Aligned(s) && s.index.dim == DefaultDimension
  {
    Snapshot(CreateIndex(DefaultDimension), [])
  }

  // ---------------------------------------------------------------- save

  /** `save_index`: write the index file, write the metadata file, upload
      the index, upload the metadata, and only then replace the cache
      entry. The first failing step raises and the later ones do not run. */
  function Save(st: Store, c: string, snap: Snapshot, io: SaveIo): (r: StoreOutcome<()>)
    ensures r.result.Ok? <==> SaveSucceeds(io)
    ensures r.result.Ok? ==> c in r.store.cache && r.store.cache[c] == snap
    ensures r.result.Err? ==> r.store.cache == st.cache
    ensures r.store.mock == st.mock
    ensures forall k :: k != c ==>
      && (k in r.store.cache <==> k in st.cache) && (k in st.cache ==> r.store.cache[k] == st.cache[k])
    ensures io.indexWriteOk ==> c in r.store.localIndex && r.store.localIndex[c] == snap.index
    ensures !io.indexWriteOk ==> r.store == st
    ensures !io.metaWriteOk ==> r.store.remoteIndex == st.remoteIndex && r.store.remoteMeta == st.remoteMeta
  {
    if !io.indexWriteOk then StoreOutcome(st, Err(WriteFailed))
    else
      var st1 := st.(localIndex := st.localIndex[c := snap.index]);
      if !io.metaWriteOk then StoreOutcome(st1, Err(WriteFailed))
      else
        var st2 := st1.(localMeta := st1.localMeta[c := snap.metadata]);
        if !io.indexUploadOk then StoreOutcome(st2, Err(UploadFailed))
        else
          var st3 := st2.(remoteIndex := st2.remoteIndex[c := snap.index]);
          if !io.metaUploadOk then StoreOutcome(st3, Err(UploadFailed))
          else
            var st4 := st3.(remoteMeta := st3.remoteMeta[c := snap.metadata]);
            StoreOutcome(st4.(cache := st4.cache[c := snap]), Ok(()))
  }

  // ---------------------------------------------------------------- load

  /** The remote fetch inside `load_index`: download the index blob and
      write it locally, then the same for the metadata blob. A missing key
      or a failed fetch raises; a failure of the second fetch leaves the
      first file written. */
  function Download(st: Store, c: string, io: LoadIo): (r: StoreOutcome<()>)
    ensures r.store.cache == st.cache && r.store.mock == st.mock
    ensures r.store.remoteIndex == st.remoteIndex && r.store.remoteMeta == st.remoteMeta
    ensures r.result.Ok? <==>
      (c in st.remoteIndex && io.indexDownloadOk && c in st.remoteMeta && io.metaDownloadOk)
    ensures r.result.Ok? ==>
      && c in r.store.localIndex && r.store.localIndex[c] == st.remoteIndex[c]
      && c in r.store.localMeta && r.store.localMeta[c] == st.remoteMeta[c]
  {
    if !(c in st.remoteIndex && io.indexDownloadOk) then StoreOutcome(st, Err(DownloadFailed))
    else
      var st1 := st.(localIndex := st.localIndex[c := st.remoteIndex[c]]);
      if !(c in st.remoteMeta && io.metaDownloadOk) then StoreOutcome(st1, Err(DownloadFailed))
      else StoreOutcome(st1.(localMeta := st1.localMeta[c := st.remoteMeta[c]]), Ok(()))
  }

  /** `load_index`: the cache, else (mock mode) a fresh empty index, else the
      local files, fetching both from the remote store first when either is
      missing. Every successful load leaves its result in the cache; a
      failed fetch re-raises and caches nothing. */
  function Load(st: Store, c: string, io: LoadIo): (r: StoreOutcome<Snapshot>)
    ensures c in st.cache ==> r == StoreOutcome(st, Ok(st.cache[c]))
    ensures c !in st.cache && st.mock ==>
      r == StoreOutcome(st.(cache := st.cache[c := EmptySnapshot()]), Ok(EmptySnapshot()))
    ensures c !in st.cache && !st.mock && c in st.localIndex && c in st.localMeta ==>
      r.store == st.(cache := st.cache[c := Snapshot(st.localIndex[c], st.localMeta[c])])
      && r.result == Ok(Snapshot(st.localIndex[c], st.localMeta[c]))
    ensures c !in st.cache && !st.mock && !(c in st.localIndex && c in st.localMeta) ==>
      && (r.result.Ok? <==>
           (c in st.remoteIndex && io.indexDownloadOk && c in st.remoteMeta && io.metaDownloadOk))
      && (r.result.Ok? ==>
           && r.result.value == Snapshot(st.remoteIndex[c], st.remoteMeta[c])
           && c in r.store.localIndex && r.store.localIndex[c] == st.remoteIndex[c]
           && c in r.store.localMeta && r.store.localMeta[c] == st.remoteMeta[c])
    ensures r.result.Ok? ==> c in r.store.cache && r.store.cache[c] == r.result.value
    ensures r.result.Err? ==> r.store.cache == st.cache
    ensures forall k :: k != c ==>
      && (k in r.store.cache <==> k in st.cache) && (k in st.cache ==> r.store.cache[k] == st.cache[k])
    ensures r.store.mock == st.mock
    ensures r.store.remoteIndex == st.remoteIndex && r.store.remoteMeta == st.remoteMeta
  {
    if c in st.cache then StoreOutcome(st, Ok(st.cache[c]))
    else if st.mock then
      StoreOutcome(st.(cache := st.cache[c := EmptySnapshot()]), Ok(EmptySnapshot()))
    else
      var fetched :=
        if c in st.localIndex && c in st.localMeta then StoreOutcome(st, Ok(()))
        else Download(st, c, io);
      if fetched.result.Err? then StoreOutcome(fetched.store, Err(DownloadFailed))
      else
        var s1 := fetched.store;
        var snap := Snapshot(s1.localIndex[c], s1.localMeta[c]);
        StoreOutcome(s1.(cache := s1.cache[c := snap]), Ok(snap))
  }

  /** A load of an aligned tenant caches an aligned snapshot and keeps every
      other cache entry. */
  lemma LoadKeepsCacheAligned(st: Store, c: string, io: LoadIo)
    requires CacheAligned(st) && FilesAligned(st, c)
    ensures CacheAligned(Load(st, c, io).store)
    ensures Load(st, c, io).result.Ok? ==> Aligned(Load(st, c, io).result.value)
  {
  }

  /** A successful save followed by a load of the same tenant returns
      exactly the saved pair, from the cache, whatever the fetches would do. */
  lemma SaveThenLoad(st: Store, c: string, snap: Snapshot, sio: SaveIo, lio: LoadIo)
    requires SaveSucceeds(sio)
    ensures var saved := Save(st, c, snap, sio).store;
      Load(saved, c, lio) == StoreOutcome(saved, Ok(snap))
  {
  }

  /** After a successful save, a process restart (an empty cache) still
      loads the saved pair, from the local files. */
  lemma SaveThenLoadAfterRestart(st: Store, c: string, snap: Snapshot, sio: SaveIo, lio: LoadIo)
    requires SaveSucceeds(sio) && !st.mock
    ensures var saved := Save(st, c, snap, sio).store;
      Load(saved.(cache := map[]), c, lio).result == Ok(snap)
  {
  }

  // ----------------------------------------------------------------- add

  /** Every row has the first row's length: numpy builds a 2-D array. */
  predicate Rectangular(es: seq<Vector>) {
    forall i :: 0 <= i < |es| ==> |es[i]| == |es[0]|
  }

  /** The checks `add_to_index` makes on a batch before inserting it, in
      order: numpy's array construction and `shape[1]`, then the dimension
      comparison. `None` means the batch is accepted. */
  function CheckBatch(ix: Index, es: seq<Vector>): (e: Option<StoreError>)
    ensures e.None? <==> |es| > 0 && Rectangular(es) && |es[0]| == ix.dim
    ensures e.None? ==> forall i :: 0 <= i < |es| ==> |es[i]| == ix.dim
  {
    if |es| == 0 then Some(EmptyBatch)
    else if !Rectangular(es) then Some(RaggedBatch)
    else if |es[0]| != ix.dim then Some(DimensionMismatch)
    else None
  }

  /** The pair `add_to_index` starts from: the loaded one, or a fresh empty
      index with empty metadata when loading raised. */
  function Base(st: Store, c: string, io: LoadIo): (s: Snapshot)
    ensures Load(st, c, io).result.Err? ==> s == EmptySnapshot()
  {
    var loaded := Load(st, c, io);
    if loaded.result.Ok? then loaded.result.value else EmptySnapshot()
  }

  /** The pair after inserting `es` and appending `ms`. */
  function Appended(s: Snapshot, es: seq<Vector>, ms: seq<Record>): (t: Snapshot)
    ensures t.index.dim == s.index.dim
    ensures |t.index.vectors| == |s.index.vectors| + |es|
    ensures t.index.vectors[..|s.index.vectors|] == s.index.vectors
    ensures t.index.vectors[|s.index.vectors|..] == es
    ensures |t.metadata| == |s.metadata| + |ms|
    ensures t.metadata[..|s.metadata|] == s.metadata && t.metadata[|s.metadata|..] == ms
    ensures Aligned(s) && |es| == |ms| ==> Aligned(t)
  {
    Snapshot(Index(s.index.dim, s.index.vectors + es), s.metadata + ms)
  }

  /** `add_to_index` with the insert applied to a copy of the loaded index,
      so that nothing reaches the cache unless the save completes. (The
      source inserts into the cached index object itself; that version is
      `AddAsWritten` below.) */
  function Add(st: Store, c: string, es: seq<Vector>, ms: seq<Record>, lio: LoadIo, sio: SaveIo)
    : (r: StoreOutcome<()>)
    ensures r.result.Ok? <==> CheckBatch(Base(st, c, lio).index, es).None? && SaveSucceeds(sio)
    ensures r.result.Ok? ==> c in r.store.cache && r.store.cache[c] == Appended(Base(st, c, lio), es, ms)
    ensures CheckBatch(Base(st, c, lio).index, es).Some? ==>
      r == StoreOutcome(Load(st, c, lio).store, Err(CheckBatch(Base(st, c, lio).index, es).value))
    ensures r.result.Err? ==> r.store.cache == Load(st, c, lio).store.cache
  {
    var loaded := Load(st, c, lio);
    var base := Base(st, c, lio);
    var bad := CheckBatch(base.index, es);
    if bad.Some? then StoreOutcome(loaded.store, Err(bad.value))
    else Save(loaded.store, c, Appended(base, es, ms), sio)
  }

  /** A successful add grows the vectors by the batch and the metadata by
      `ms`, in order; it keeps the tenant aligned when the batch is. */
  lemma AddAppends(st: Store, c: string, es: seq<Vector>, ms: seq<Record>, lio: LoadIo, sio: SaveIo)
    requires Add(st, c, es, ms, lio, sio).result.Ok?
    ensures var after := Add(st, c, es, ms, lio, sio).store.cache[c];
      var before := Base(st, c, lio);
      && after.metadata == before.metadata + ms
      && |after.index.vectors| == |before.index.vectors| + |es|
      && (Aligned(before) && |es| == |ms| ==> Aligned(after))
  {
  }

  /** A batch of the wrong width is refused before anything is inserted or
      saved: the store is exactly as the load left it. */
  lemma AddDimensionMismatch(st: Store, c: string, es: seq<Vector>, ms: seq<Record>, lio: LoadIo, sio: SaveIo)
    requires |es| > 0 && Rectangular(es) && |es[0]| != Base(st, c, lio).index.dim
    ensures Add(st, c, es, ms, lio, sio) == StoreOutcome(Load(st, c, lio).store, Err(DimensionMismatch))
  {
  }

  /** When loading raises, the add starts from an empty 1536-dimension
      index: on success every tier holds just this batch, and whatever the
      remote store held before for the tenant is replaced, not merged. */
  lemma AddAfterFailedLoad(st: Store, c: string, es: seq<Vector>, ms: seq<Record>, lio: LoadIo, sio: SaveIo)
    requires Load(st, c, lio).result.Err?
    requires Add(st, c, es, ms, lio, sio).result.Ok?
    ensures var after := Add(st, c, es, ms, lio, sio).store;
      && after.cache[c] == Snapshot(Index(DefaultDimension, es), ms)
      && after.remoteIndex[c] == Index(DefaultDimension, es)
      && after.remoteMeta[c] == ms
  {
    var loaded := Load(st, c, lio);
    assert Base(st, c, lio) == EmptySnapshot();
    assert [] + es == es && [] + ms == ms;
  }

  /** The corrected add keeps every cached pair aligned, under every pattern
      of storage failures, provided the batch is aligned. */
  lemma AddKeepsCacheAligned(st: Store, c: string, es: seq<Vector>, ms: seq<Record>, lio: LoadIo, sio: SaveIo)
    requires CacheAligned(st) && FilesAligned(st, c) && |es| == |ms|
    ensures CacheAligned(Add(st, c, es, ms, lio, sio).store)
  {
    LoadKeepsCacheAligned(st, c, lio);
    var r := Add(st, c, es, ms, lio, sio);
    if r.result.Ok? {
      var loaded := Load(st, c, lio);
      assert Aligned(Base(st, c, lio));
      forall k | k in r.store.cache ensures Aligned(r.store.cache[k]) {
        if k != c { assert r.store.cache[k] == loaded.store.cache[k]; }
      }
    }
  }

  /** `add_to_index` as written: `index.add` grows the index object that
      the cache entry points to, while the cache's metadata list is only
      replaced at the end of a completed save. */
  function AddAsWritten(st: Store, c: string, es: seq<Vector>, ms: seq<Record>, lio: LoadIo, sio: SaveIo)
    : (r: StoreOutcome<()>)
    ensures SaveSucceeds(sio) ==> r == Add(st, c, es, ms, lio, sio)
    ensures r.result.Ok? ==> SaveSucceeds(sio)
    ensures Load(st, c, lio).result.Ok? && CheckBatch(Base(st, c, lio).index, es).None? && !SaveSucceeds(sio) ==>
      r.result.Err? && c in r.store.cache
      && r.store.cache[c] == Snapshot(Appended(Base(st, c, lio), es, ms).index, Base(st, c, lio).metadata)
  {
    var loaded := Load(st, c, lio);
    var base := Base(st, c, lio);
    var bad := CheckBatch(base.index, es);
    if bad.Some? then StoreOutcome(loaded.store, Err(bad.value))
    else
      var grown := Appended(base, es, ms).index;
      var aliased :=
        if loaded.result.Ok? then loaded.store.(cache := loaded.store.cache[c := Snapshot(grown, base.metadata)])
        else loaded.store;
      Save(aliased, c, Appended(base, es, ms), sio)
  }

  /** The defect of `AddAsWritten`: a failed save on an aligned cached
      tenant leaves the cache pairing the grown index with the old
      metadata. */
  lemma AddAsWrittenBreaksAlignment(st: Store, c: string, es: seq<Vector>, ms: seq<Record>, lio: LoadIo, sio: SaveIo)
    requires c in st.cache && Aligned(st.cache[c])
    requires CheckBatch(st.cache[c].index, es).None? && !SaveSucceeds(sio)
    ensures !CacheAligned(AddAsWritten(st, c, es, ms, lio, sio).store)
  {
    var r := AddAsWritten(st, c, es, ms, lio, sio);
    assert !Aligned(r.store.cache[c]);
  }

  /** A concrete run of the defect: a one-vector batch whose first local
      write fails leaves a cached pair of one vector and no metadata, and a
      second, successful batch is then stored with its metadata at position
      0 while vector 0 is the failed batch's vector. */
  lemma AddAsWrittenMisattributes()
    ensures var st0 := Store(false, map["t" := Snapshot(Index(1, []), [])], map[], map[], map[], map[]);
      var lio := LoadIo(true, true);
      var failed := AddAsWritten(st0, "t", [[1.0]], [map["text" := VStr("a")]], lio, SaveIo(false, true, true, true));
      var ok := AddAsWritten(failed.store, "t", [[2.0]], [map["text" := VStr("b")]], lio, SaveIo(true, true, true, true));
      && failed.result.Err? && ok.result.Ok?
      && ok.store.cache["t"].index.vectors == [[1.0], [2.0]]
      && ok.store.cache["t"].metadata == [map["text" := VStr("b")]]
  {
    var st0 := Store(false, map["t" := Snapshot(Index(1, []), [])], map[], map[], map[], map[]);
    var lio := LoadIo(true, true);
    var failed := AddAsWritten(st0, "t", [[1.0]], [map["text" := VStr("a")]], lio, SaveIo(false, true, true, true));
    assert failed.store.cache["t"] == Snapshot(Index(1, [[1.0]]), []);
    assert Rectangular([[2.0]]);
    assert [[1.0]] + [[2.0]] == [[1.0], [2.0]];
  }

  // -------------------------------------------------------------- search

  /** An L2 distance from the index; never negative. */
  type Distance = d: real | d >= 0.0

  /** One entry of `index.search`: an internal id (`-1` for padding) and
      its distance. */
  datatype Hit = Hit(id: int, distance: Distance)

  /** Similarity of a hit: `1 / (1 + d)`. */
  function Score(d: Distance): (s: real)
    ensures 0.0 < s <= 1.0
    ensures s == 1.0 <==> d == 0.0
  {
    1.0 / (1.0 + d)
  }

  /** A greater distance never scores higher. */
  lemma ScoreNonIncreasing(d1: Distance, d2: Distance)
    requires d1 <= d2
    ensures Score(d2) <= Score(d1)
  {
    var x, y := Score(d1), Score(d2);
    assert x * (1.0 + d1) == 1.0;
    assert y * (1.0 + d2) == 1.0;
    assert x * y * (1.0 + d2) == x;
    assert x * y * (1.0 + d1) == y;
    assert x - y == x * y * (d2 - d1);
    assert x * y > 0.0;
  }

  /** Does a hit name a metadata position? */
  predicate InRange(metadata: seq<Record>, h: Hit) {
    0 <= h.id < |metadata|
  }

  /** The record returned for an in-range hit: a copy of the metadata record
      with `score` set. */
  function Annotate(metadata: seq<Record>, h: Hit): (m: Record)
    requires InRange(metadata, h)
    ensures "score" in m && m["score"] == VFloat(Score(h.distance))
    ensures forall k :: k in metadata[h.id] && k != "score" ==> k in m && m[k] == metadata[h.id][k]
  {
    metadata[h.id]["score" := VFloat(Score(h.distance))]
  }

  /** The loop of `search_index`: skip ids outside the metadata list, keep
      the rest in the oracle's order. */
  function FilterHits(metadata: seq<Record>, hits: seq<Hit>): (rs: seq<Record>)
    ensures |rs| <= |hits|
    ensures (forall j :: 0 <= j < |hits| ==> InRange(metadata, hits[j])) ==> |rs| == |hits|
    ensures forall r :: r in rs ==> exists h :: h in hits && InRange(metadata, h) && r == Annotate(metadata, h)
    decreases |hits|
  {
    if |hits| == 0 then []
    else
      var rest := FilterHits(metadata, hits[1..]);
      assert forall h :: h in hits[1..] ==> h in hits;
      if InRange(metadata, hits[0]) then [Annotate(metadata, hits[0])] + rest else rest
  }

  /** The filter distributes over concatenation: results keep the oracle's
      order. */
  lemma {:induction false} FilterHitsAppend(metadata: seq<Record>, a: seq<Hit>, b: seq<Hit>)
    ensures FilterHits(metadata, a + b) == FilterHits(metadata, a) + FilterHits(metadata, b)
    decreases |a|
  {
    if |a| == 0 {
      assert a + b == b;
    } else {
      assert (a + b)[1..] == a[1..] + b;
      FilterHitsAppend(metadata, a[1..], b);
    }
  }

  /** Padding ids and ids past the metadata list contribute nothing. */
  lemma FilterHitsDropsOutOfRange(metadata: seq<Record>, hits: seq<Hit>)
    requires forall j :: 0 <= j < |hits| ==> !InRange(metadata, hits[j])
    ensures FilterHits(metadata, hits) == []
  {
    if |hits| > 0 {
      FilterHitsDropsOutOfRange(metadata, hits[1..]);
    }
  }

  /** `search_index`: load the tenant (a failed load raises), refuse a query
      of the wrong width, then post-process the oracle's `hits` for
      `topK`. */
  function Search(st: Store, c: string, query: Vector, topK: int, hits: seq<Hit>, io: LoadIo)
    : (r: StoreOutcome<seq<Record>>)
    ensures r.store == Load(st, c, io).store
    ensures Load(st, c, io).result.Err? ==> r.result == Err(DownloadFailed)
    ensures Load(st, c, io).result.Ok? && |query| != Load(st, c, io).result.value.index.dim ==>
      r.result == Err(DimensionMismatch)
    ensures Load(st, c, io).result.Ok? && |query| == Load(st, c, io).result.value.index.dim ==>
      r.result.Ok?
    ensures r.result.Ok? ==>
      && Load(st, c, io).result.Ok?
      && r.result.value == FilterHits(Load(st, c, io).result.value.metadata, hits)
      && |r.result.value| <= |hits|
    ensures r.result.Ok? && |hits| <= topK ==> |r.result.value| <= topK
  {
    var loaded := Load(st, c, io);
    if loaded.result.Err? then StoreOutcome(loaded.store, Err(loaded.result.error))
    else
      var snap := loaded.result.value;
      if |query| != snap.index.dim then StoreOutcome(loaded.store, Err(DimensionMismatch))
      else StoreOutcome(loaded.store, Ok(FilterHits(snap.metadata, hits)))
  }

  /** An empty tenant (mock mode, or no vectors yet) yields no results,
      whatever ids the oracle pads with. */
  lemma SearchEmptyTenant(st: Store, c: string, query: Vector, topK: int, hits: seq<Hit>, io: LoadIo)
    requires Load(st, c, io).result.Ok? && Load(st, c, io).result.value.metadata == []
    requires |query| == Load(st, c, io).result.value.index.dim
    ensures Search(st, c, query, topK, hits, io).result == Ok([])
  {
    FilterHitsDropsOutOfRange([], hits);
  }
}
