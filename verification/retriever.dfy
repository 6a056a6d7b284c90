/** Query-time retrieval: embed the query with the local embedding model,
    search the tenant's index, and keep the well-formed results. Every
    failure of the embedding or of the search degrades to no chunks. */
module Retriever {
  import opened Wrappers
  import opened PyValues
  import opened VectorStore

  /** A retrieved chunk: exactly the keys `text`, `metadata` and `score`. */
  datatype Chunk = Chunk(text: Value, metadata: Value, score: real)

  /** `float(item["score"])` raised (the post-processing loop is not inside
      a `try`, so this propagates to the caller). */
  datatype RetrieverError = ScoreNotNumeric

  /** A search result the retriever keeps: it has `text` and `metadata`. */
  predicate Usable(item: Record) {
    "text" in item && "metadata" in item
  }

  /** `float(item.get("score", 0.0))`. */
  function ScoreOf(item: Record): Option<real> {
    ToFloat(GetOr(item, "score", VFloat(0.0)))
  }

  /** The chunk built from a usable result whose score converts. */
  function ToChunk(item: Record): (ch: Chunk)
    requires Usable(item) && ScoreOf(item).Some?
    ensures ch.text == item["text"] && ch.metadata == item["metadata"]
    ensures ch.score == (if "score" in item then ToFloat(item["score"]).value else 0.0)
  {
    Chunk(item["text"], item["metadata"], ScoreOf(item).value)
  }

  /** Some usable result has a score `float` cannot convert. */
  predicate HasBadScore(results: seq<Record>) {
    exists i :: 0 <= i < |results| && Usable(results[i]) && ScoreOf(results[i]).None?
  }

  /** The post-processing loop: drop results lacking `text` or `metadata`,
      convert the rest, in order. */
  function Clean(results: seq<Record>): (r: Option<seq<Chunk>>)
    ensures r.None? <==> HasBadScore(results)
    ensures r.Some? ==> |r.value| <= |results|
    ensures r.Some? ==> forall ch :: ch in r.value ==>
      exists item :: item in results && Usable(item) && ScoreOf(item).Some? && ch == ToChunk(item)
    ensures r.Some? && (forall i :: 0 <= i < |results| ==> Usable(results[i])) ==> |r.value| == |results|
    decreases |results|
  {
    if |results| == 0 then Some([])
    else
      var rest := Clean(results[1..]);
      assert forall item :: item in results[1..] ==> item in results;
      assert HasBadScore(results) <==>
        (Usable(results[0]) && ScoreOf(results[0]).None?) || HasBadScore(results[1..]) by {
        if HasBadScore(results[1..]) {
          var i :| 0 <= i < |results[1..]| && Usable(results[1..][i]) && ScoreOf(results[1..][i]).None?;
          assert results[i + 1] == results[1..][i];
        }
        if HasBadScore(results) && !(Usable(results[0]) && ScoreOf(results[0]).None?) {
          var i :| 0 <= i < |results| && Usable(results[i]) && ScoreOf(results[i]).None?;
          assert results[1..][i - 1] == results[i];
        }
      }
      if !Usable(results[0]) then rest
      else if ScoreOf(results[0]).None? then None
      else if rest.None? then None
      else Some([ToChunk(results[0])] + rest.value)
  }

  /** Cleaning distributes over concatenation, so kept results stay in the
      search's order. */
  lemma {:induction false} CleanAppend(a: seq<Record>, b: seq<Record>)
    requires !HasBadScore(a) && !HasBadScore(b)
    ensures Clean(a + b) == Some(Clean(a).value + Clean(b).value)
    decreases |a|
  {
    if |a| == 0 {
      assert a + b == b;
      assert Clean(a) == Some([]);
      assert [] + Clean(b).value == Clean(b).value;
    } else {
      assert (a + b)[1..] == a[1..] + b;
      assert (a + b)[0] == a[0];
      CleanAppend(a[1..], b);
      if Usable(a[0]) {
        assert Clean(a + b) == Some([ToChunk(a[0])] + Clean(a[1..] + b).value);
        assert [ToChunk(a[0])] + (Clean(a[1..]).value + Clean(b).value)
            == ([ToChunk(a[0])] + Clean(a[1..]).value) + Clean(b).value;
      }
    }
  }

  /** Every record `search_index` returns carries a float score, so the
      post-processing never raises on them. */
  lemma SearchResultsClean(metadata: seq<Record>, hits: seq<Hit>)
    ensures !HasBadScore(FilterHits(metadata, hits))
  {
    var rs := FilterHits(metadata, hits);
    forall i | 0 <= i < |rs| ensures ScoreOf(rs[i]).Some? {
      assert rs[i] in rs;
    }
  }

  /** A run of `retrieve_relevant_chunks`: the store after it, the chunks or
      the error, and whether the embedding and the search were attempted. */
  datatype RetrievalRun = RetrievalRun(
    store: Store, result: Result<seq<Chunk>, RetrieverError>, embedded: bool, searched: bool)

  /** `retrieve_relevant_chunks`. `queryEmbeddings` is what the local
      embedding model returns for `[query]` (empty when it fails) and `hits`
      is the index oracle's answer. */
  function Retrieve(st: Store, c: string, query: string, topK: int,
                    queryEmbeddings: seq<Vector>, hits: seq<Hit>, io: LoadIo): (r: RetrievalRun)
    ensures IsBlank(query) ==> r == RetrievalRun(st, Ok([]), false, false)
    ensures !IsBlank(query) ==> r.embedded
    ensures !IsBlank(query) && |queryEmbeddings| == 0 ==> r == RetrievalRun(st, Ok([]), true, false)
    ensures r.searched <==> !IsBlank(query) && |queryEmbeddings| > 0
    ensures r.searched ==>
      (|queryEmbeddings| > 0 && r.store == Search(st, c, queryEmbeddings[0], topK, hits, io).store)
    ensures r.searched && Search(st, c, queryEmbeddings[0], topK, hits, io).result.Err? ==> r.result == Ok([])
    ensures r.searched && Search(st, c, queryEmbeddings[0], topK, hits, io).result.Ok? ==>
      && Clean(Search(st, c, queryEmbeddings[0], topK, hits, io).result.value).Some?
      && r.result == Ok(Clean(Search(st, c, queryEmbeddings[0], topK, hits, io).result.value).value)
    ensures r.result.Ok? && r.searched ==> |r.result.value| <= |hits|
    ensures r.result.Ok?
  {
    if IsBlank(query) then RetrievalRun(st, Ok([]), false, false)
    else if |queryEmbeddings| == 0 then RetrievalRun(st, Ok([]), true, false)
    else
      var found := Search(st, c, queryEmbeddings[0], topK, hits, io);
      if found.result.Err? then RetrievalRun(found.store, Ok([]), true, true)
      else
        var snap := Load(st, c, io).result.value;
        SearchResultsClean(snap.metadata, hits);
        RetrievalRun(found.store, Ok(Clean(found.result.value).value), true, true)
  }

  /** A query vector whose width differs from the tenant's index — for
      instance a local-model query embedding against a default 1536-wide
      index — always retrieves nothing. */
  lemma RetrieveWidthMismatchIsEmpty(st: Store, c: string, query: string, topK: int,
                                     queryEmbeddings: seq<Vector>, hits: seq<Hit>, io: LoadIo)
    requires |queryEmbeddings| > 0
    requires Load(st, c, io).result.Ok? && |queryEmbeddings[0]| != Load(st, c, io).result.value.index.dim
    ensures Retrieve(st, c, query, topK, queryEmbeddings, hits, io).result == Ok([])
  {
  }

  /** In mock mode a tenant that has no cache entry gets a fresh 1536-wide
      index, so a query vector of any other width retrieves nothing. */
  lemma RetrieveMockWidthMismatch(st: Store, c: string, query: string, topK: int,
                                  queryEmbeddings: seq<Vector>, hits: seq<Hit>, io: LoadIo)
    requires st.mock && c !in st.cache
    requires |queryEmbeddings| > 0 && |queryEmbeddings[0]| != DefaultDimension
    ensures Retrieve(st, c, query, topK, queryEmbeddings, hits, io).result == Ok([])
  {
  }

  /** Every retrieved chunk's score is `1/(1+d)` for some oracle distance,
      so it lies in (0, 1]. */
  lemma RetrievedScoresInUnitInterval(st: Store, c: string, query: string, topK: int,
                                      queryEmbeddings: seq<Vector>, hits: seq<Hit>, io: LoadIo)
    ensures var r := Retrieve(st, c, query, topK, queryEmbeddings, hits, io).result.value;
      forall i :: 0 <= i < |r| ==> 0.0 < r[i].score <= 1.0
  {
    var run := Retrieve(st, c, query, topK, queryEmbeddings, hits, io);
    var r := run.result.value;
    if run.searched && Search(st, c, queryEmbeddings[0], topK, hits, io).result.Ok? {
      var results := Search(st, c, queryEmbeddings[0], topK, hits, io).result.value;
      var metadata := Load(st, c, io).result.value.metadata;
      forall i | 0 <= i < |r| ensures 0.0 < r[i].score <= 1.0 {
        assert r[i] in r;
        var item :| item in results && Usable(item) && ScoreOf(item).Some? && r[i] == ToChunk(item);
        var h :| h in hits && InRange(metadata, h) && item == Annotate(metadata, h);
        assert item["score"] == VFloat(Score(h.distance));
      }
    }
  }
}
