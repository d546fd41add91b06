/**
  The FAISS retriever (src/retriever.py): the query-embedding cache with its
  1000-entry insertion cap, the filter over the index's hit positions and
  the formatting of retrieved documents as a context string.

  The sentence encoder is the capability `encode`; the FAISS search,
  together with the L2 normalisation of the query vector before it, is the
  capability `search`, returning the hit positions and scores in index order.
*/
module Retrieval {
  import opened Wrappers
  import opened Strings

  /** Only queries seen while the cache holds fewer entries than this are cached. */
  const MaxCachedEmbeddings: nat := 1000
  /** `TOP_K_RETRIEVAL` (src/config.py), the default number of documents to fetch. */
  const TopKRetrieval: int := 2
  /** What `format_context` returns for an empty document list. */
  const NoContext: string := "No relevant information " + "found in knowledge base."

  type Embedding = seq<real>

  /** One row of the index's answer: a metadata position and its similarity score. */
  datatype IndexHit = IndexHit(position: int, score: real)

  /** The `metadata` object of a knowledge-base entry, reduced to what is read from it. */
  datatype DocMetadata = DocMetadata(instruction: string, response: string)

  /** One element of the metadata list loaded alongside the index. */
  datatype MetadataEntry = MetadataEntry(id: int, metadata: DocMetadata)

  /** One result dictionary of `retrieve`: `{'id', 'score', 'metadata'}`. */
  datatype RetrievedDocument = RetrievedDocument(id: int, score: real, metadata: DocMetadata)

  function Document(entry: MetadataEntry, score: real): RetrievedDocument {
    RetrievedDocument(entry.id, score, entry.metadata)
  }

  // ---------------------------------------------------------------------
  // The embedding cache
  // ---------------------------------------------------------------------

  /**
    The cache after looking up `query` whose embedding is `e`: a hit leaves
    it alone, a miss is added only while fewer than 1000 entries are held.
    Nothing is ever overwritten or evicted.
  */
  function CacheAfter(cache: map<string, Embedding>, query: string, e: Embedding): (r: map<string, Embedding>)
    ensures forall q :: q in cache ==> q in r && r[q] == cache[q]
    ensures forall q :: q in r && q !in cache ==> q == query && r[q] == e
    ensures query in r <==> query in cache || |cache| < MaxCachedEmbeddings
    ensures |cache| <= MaxCachedEmbeddings ==> |r| <= MaxCachedEmbeddings
  {
    if query in cache || |cache| >= MaxCachedEmbeddings then cache else cache[query := e]
  }

  /** Once the cache is full it never changes again, whatever is looked up. */
  lemma {:induction false} FullCacheIsFrozen(cache: map<string, Embedding>, queries: seq<string>, encode: string -> Embedding)
    requires |cache| >= MaxCachedEmbeddings
    ensures CacheAfterAll(cache, queries, encode) == cache
    decreases |queries|
  {
    if queries != [] {
      FullCacheIsFrozen(cache, queries[1..], encode);
    }
  }

  /** The cache after looking up each of `queries` in turn. */
  function CacheAfterAll(cache: map<string, Embedding>, queries: seq<string>, encode: string -> Embedding): map<string, Embedding>
    decreases |queries|
  {
    if queries == [] then cache
    else CacheAfterAll(CacheAfter(cache, queries[0], encode(queries[0])), queries[1..], encode)
  }

  /** However many queries are looked up, the cache never holds more than 1000 entries. */
  lemma {:induction false} CacheStaysBounded(cache: map<string, Embedding>, queries: seq<string>, encode: string -> Embedding)
    requires |cache| <= MaxCachedEmbeddings
    ensures |CacheAfterAll(cache, queries, encode)| <= MaxCachedEmbeddings
    ensures forall q :: q in cache ==> q in CacheAfterAll(cache, queries, encode) && CacheAfterAll(cache, queries, encode)[q] == cache[q]
    decreases |queries|
  {
    if queries != [] {
      CacheStaysBounded(CacheAfter(cache, queries[0], encode(queries[0])), queries[1..], encode);
    }
  }

  /** `top_k or self.top_k`: `None` and `0` both fall back to the retriever's default. */
  function EffectiveTopK(topK: Option<int>, default: int): (k: int)
    ensures topK.Some? && topK.value != 0 ==> k == topK.value
    ensures topK.None? || topK.value == 0 ==> k == default
  {
    if topK.Some? && topK.value != 0 then topK.value else default
  }

  // ---------------------------------------------------------------------
  // Filtering the index's answer
  // ---------------------------------------------------------------------

  /**
    The documents `retrieve` keeps from `hits`: those whose position names a
    metadata entry, in index order, each with its score.
  */
  function KeptHits(hits: seq<IndexHit>, metadata: seq<MetadataEntry>): (r: seq<RetrievedDocument>)
    ensures |r| <= |hits|
    decreases |hits|
  {
    if hits == [] then []
    else
      var prior := KeptHits(hits[..|hits| - 1], metadata);
      var h := hits[|hits| - 1];
      if 0 <= h.position < |metadata| then prior + [Document(metadata[h.position], h.score)] else prior
  }

  /** Filtering a concatenation filters each part: the index order is kept. */
  lemma {:induction false} KeptHitsAppend(a: seq<IndexHit>, b: seq<IndexHit>, metadata: seq<MetadataEntry>)
    ensures KeptHits(a + b, metadata) == KeptHits(a, metadata) + KeptHits(b, metadata)
    decreases |b|
  {
    if b == [] {
      assert a + b == a;
    } else {
      var b' := b[..|b| - 1];
      assert (a + b)[..|a + b| - 1] == a + b';
      KeptHitsAppend(a, b', metadata);
    }
  }

  /** `d` is the result dictionary built from hit `h`. */
  predicate FromHit(d: RetrievedDocument, h: IndexHit, metadata: seq<MetadataEntry>) {
    0 <= h.position < |metadata| && d == Document(metadata[h.position], h.score)
  }

  /** Every kept document is the metadata entry a hit names, with that hit's score. */
  lemma {:induction false} KeptHitsComeFromMetadata(hits: seq<IndexHit>, metadata: seq<MetadataEntry>)
    ensures forall d :: d in KeptHits(hits, metadata) ==> exists i :: 0 <= i < |hits| && FromHit(d, hits[i], metadata)
    decreases |hits|
  {
    if hits != [] {
      var init := hits[..|hits| - 1];
      KeptHitsComeFromMetadata(init, metadata);
      forall d | d in KeptHits(hits, metadata)
        ensures exists i :: 0 <= i < |hits| && FromHit(d, hits[i], metadata)
      {
        if d in KeptHits(init, metadata) {
          var i :| 0 <= i < |init| && FromHit(d, init[i], metadata);
          assert hits[i] == init[i];
        } else {
          assert FromHit(d, hits[|hits| - 1], metadata);
        }
      }
    }
  }

  /** When every position is in range nothing is dropped and the i-th result is the i-th hit. */
  lemma {:induction false} KeptHitsAllInRange(hits: seq<IndexHit>, metadata: seq<MetadataEntry>)
    requires forall i :: 0 <= i < |hits| ==> 0 <= hits[i].position < |metadata|
    ensures |KeptHits(hits, metadata)| == |hits|
    ensures forall i :: 0 <= i < |hits| ==> KeptHits(hits, metadata)[i] == Document(metadata[hits[i].position], hits[i].score)
    decreases |hits|
  {
    if hits != [] {
      KeptHitsAllInRange(hits[..|hits| - 1], metadata);
    }
  }

  /**
    The filter as written: only `idx < len(metadata)` is checked, and Python
    reads a negative position from the end of the list (or fails below
    `-len(metadata)`, which is `None` here).
  */
  function KeptHitsAsWritten(hits: seq<IndexHit>, metadata: seq<MetadataEntry>): (r: Option<seq<RetrievedDocument>>)
    ensures r.Some? ==> |r.value| <= |hits|
    decreases |hits|
  {
    if hits == [] then Some([])
    else
      var prior := KeptHitsAsWritten(hits[..|hits| - 1], metadata);
      var h := hits[|hits| - 1];
      if prior.None? then None
      else if h.position >= |metadata| then prior
      else if h.position >= 0 then Some(prior.value + [Document(metadata[h.position], h.score)])
      else if h.position >= -|metadata| then Some(prior.value + [Document(metadata[|metadata| + h.position], h.score)])
      else None
  }

  /** With no negative positions the filter as written and the corrected one agree. */
  lemma {:induction false} AsWrittenAgreesOnNonNegative(hits: seq<IndexHit>, metadata: seq<MetadataEntry>)
    requires forall i :: 0 <= i < |hits| ==> hits[i].position >= 0
    ensures KeptHitsAsWritten(hits, metadata) == Some(KeptHits(hits, metadata))
    decreases |hits|
  {
    if hits != [] {
      AsWrittenAgreesOnNonNegative(hits[..|hits| - 1], metadata);
    }
  }

  /**
    FAISS fills missing results with position -1. The filter as written lets
    that through and returns the last metadata entry a second time, with the
    padding score; the corrected filter drops it.
  */
  lemma PaddingHitDuplicatesLastEntry()
    ensures var metadata := [MetadataEntry(0, DocMetadata("a", "b")), MetadataEntry(1, DocMetadata("c", "d"))];
      var hits := [IndexHit(1, 0.75), IndexHit(-1, -1.0)];
      && KeptHitsAsWritten(hits, metadata)
         == Some([Document(metadata[1], 0.75), Document(metadata[1], -1.0)])
      && KeptHits(hits, metadata) == [Document(metadata[1], 0.75)]
  {
    var metadata := [MetadataEntry(0, DocMetadata("a", "b")), MetadataEntry(1, DocMetadata("c", "d"))];
    var hits := [IndexHit(1, 0.75), IndexHit(-1, -1.0)];
    assert hits[..1] == [IndexHit(1, 0.75)];
    assert hits[..1][..0] == [];
    var first := Document(metadata[1], 0.75);
    assert [] + [first] == [first];
    assert KeptHitsAsWritten(hits[..1], metadata) == Some([first]);
    assert [first] + [Document(metadata[1], -1.0)] == [first, Document(metadata[1], -1.0)];
    assert KeptHits(hits[..1], metadata) == [Document(metadata[1], 0.75)];
  }

  /** The loop of `retrieve` that turns hits into result dictionaries. */
  method CollectResults(hits: seq<IndexHit>, metadata: seq<MetadataEntry>) returns (results: seq<RetrievedDocument>)
    ensures results == KeptHits(hits, metadata)
  {
    results := [];
    var i := 0;
    while i < |hits|
      invariant 0 <= i <= |hits|
      invariant results == KeptHits(hits[..i], metadata)
    {
      assert hits[..i + 1][..i] == hits[..i];
      var idx := hits[i].position;
      if 0 <= idx < |metadata| {
        results := results + [Document(metadata[idx], hits[i].score)];
      }
      i := i + 1;
    }
    assert hits[..i] == hits;
  }

  // ---------------------------------------------------------------------
  // Context formatting
  // ---------------------------------------------------------------------

  /** One numbered block: `[Context i]`, then the stored question, then its answer. */
  function ContextBlock(i: nat, d: RetrievedDocument): string {
    "[Context " + NatToString(i) + "]\nQuestion: " + d.metadata.instruction + "\nAnswer: " + d.metadata.response
  }

  /** The blocks of `docs`, numbered from 1. */
  function Blocks(docs: seq<RetrievedDocument>): (b: seq<string>)
    ensures |b| == |docs|
    ensures forall j :: 0 <= j < |docs| ==> b[j] == ContextBlock(j + 1, docs[j])
  {
    seq(|docs|, j requires 0 <= j < |docs| => ContextBlock(j + 1, docs[j]))
  }

  /**
    `format_context`: the sentinel for no documents, otherwise the numbered
    blocks joined by a blank line. One document gives exactly its block; a
    non-empty result starts with the first block and so can never be taken for
    the sentinel.
  */
  function FormatContext(docs: seq<RetrievedDocument>): (r: string)
    ensures docs == [] ==> r == NoContext
    ensures docs != [] ==> StartsWith(r, ContextBlock(1, docs[0])) && r[0] == '[' && r != NoContext
    ensures |docs| == 1 ==> r == ContextBlock(1, docs[0])
  {
    if docs == [] then NoContext
    else
      var r := Join("\n\n", Blocks(docs));
      JoinStartsWithFirst("\n\n", Blocks(docs));
      assert r[0] == ContextBlock(1, docs[0])[0] == '[';
      r
  }

  /** One more document adds a blank line and the next numbered block at the end. */
  lemma FormatContextAppend(docs: seq<RetrievedDocument>, d: RetrievedDocument)
    requires docs != []
    ensures FormatContext(docs + [d]) == FormatContext(docs) + "\n\n" + ContextBlock(|docs| + 1, d)
  {
    assert Blocks(docs + [d]) == Blocks(docs) + [ContextBlock(|docs| + 1, d)];
    JoinAppend("\n\n", Blocks(docs), ContextBlock(|docs| + 1, d));
  }

  // ---------------------------------------------------------------------
  // The retriever
  // ---------------------------------------------------------------------

  class RagRetriever {
    const topK: int
    const encode: string -> Embedding
    const search: (Embedding, int) -> seq<IndexHit>
    const metadata: seq<MetadataEntry>
    var embeddingCache: map<string, Embedding>
    /** How many times the encoder has been asked for an embedding. */
    ghost var encoderCalls: nat

    /** Every cached embedding is the encoder's for its query, and the cap holds. */
    ghost predicate Valid()
      reads this
    {
      && |embeddingCache| <= MaxCachedEmbeddings
      && forall q :: q in embeddingCache ==> embeddingCache[q] == encode(q)
    }

    /** Construction after the index and the metadata file were loaded. */
    constructor (topK: int, encode: string -> Embedding, search: (Embedding, int) -> seq<IndexHit>, metadata: seq<MetadataEntry>)
      ensures this.topK == topK && this.encode == encode && this.search == search && this.metadata == metadata
      ensures embeddingCache == map[] && encoderCalls == 0
      ensures Valid()
    {
      this.topK := topK;
      this.encode := encode;
      this.search := search;
      this.metadata := metadata;
      embeddingCache := map[];
      encoderCalls := 0;
    }

    /**
      `create_query_embedding`: a hit returns the stored embedding without
      calling the encoder; a miss calls it once, caches the result while
      there is room, and returns it either way.
    */
    method CreateQueryEmbedding(query: string) returns (e: Embedding)
      requires Valid()
      modifies this`embeddingCache, this`encoderCalls
      ensures Valid()
      ensures e == encode(query)
      ensures query in old(embeddingCache) ==> e == old(embeddingCache)[query]
      ensures embeddingCache == CacheAfter(old(embeddingCache), query, e)
      ensures encoderCalls == old(encoderCalls) + (if query in old(embeddingCache) then 0 else 1)
    {
      if query in embeddingCache {
        return embeddingCache[query];
      }
      e := encode(query);
      encoderCalls := encoderCalls + 1;
      if |embeddingCache| < MaxCachedEmbeddings {
        embeddingCache := embeddingCache[query := e];
      }
    }

    /**
      `retrieve`: embed (through the cache), search with the effective `k`,
      and keep the in-range hits in index order.
    */
    method Retrieve(query: string, topK: Option<int>) returns (results: seq<RetrievedDocument>)
      requires Valid()
      modifies this`embeddingCache, this`encoderCalls
      ensures Valid()
      ensures embeddingCache == CacheAfter(old(embeddingCache), query, encode(query))
      ensures results == KeptHits(search(encode(query), EffectiveTopK(topK, this.topK)), metadata)
    {
      var k := EffectiveTopK(topK, this.topK);
      var queryEmbedding := CreateQueryEmbedding(query);
      var hits := search(queryEmbedding, k);
      results := CollectResults(hits, metadata);
    }
  }
}
