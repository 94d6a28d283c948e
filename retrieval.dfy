/**
  `RAGRetrievalAgent`: a registry of vector-store collections, one per
  embedding strategy, each with a keyword index over its latest batch; and
  hybrid retrieval, which fuses the semantic distance and the keyword score of
  every candidate, filters by well name, sorts by the fused score and keeps
  the best `top_k`.

  The vector store's similarity search and the BM25 scorer are not modelled:
  they enter as function parameters (`search` and `keywordScores`).
*/
module Retrieval {
  import opened Wrappers
  import opened Strings
  import opened Sorting
  import opened Metadata

  /** The parts of the configuration the agent reads. */
  datatype RetrievalConfig = RetrievalConfig(
    /** `embedding_strategies[<strategy>]['collection']` */
    collectionOf: map<string, string>,
    /** `agents.rag_retrieval.top_k_<mode>` */
    topK: map<string, nat>,
    semanticWeight: real,
    keywordWeight: real)

  /** A chunk handed to `index_documents`: its `content` and `metadata`. */
  datatype Doc = Doc(content: string, metadata: Meta)

  /** One record added to a collection. */
  datatype Stored = Stored(id: string, content: string, metadata: Meta)

  /** One semantic search result: document, metadata and distance. */
  datatype Hit = Hit(doc: string, meta: Meta, distance: real)

  /** One retrieved chunk. */
  datatype Retrieved = Retrieved(content: string, metadata: Meta, score: real, citation: string)

  /** The id of the `i`-th record of a batch indexed at time `now` (whole seconds). */
  function RecordId(strategy: string, i: nat, now: int): (r: string)
    ensures strategy + "_" <= r
  {
    strategy + "_" + NatToString(i) + "_" + IntToString(now)
  }

  /** The records one `index_documents` call adds: one per chunk, in order. */
  function Batch(strategy: string, chunks: seq<Doc>, now: int): (r: seq<Stored>)
    ensures |r| == |chunks|
    ensures forall i :: 0 <= i < |r| ==>
      r[i].content == chunks[i].content && r[i].metadata == chunks[i].metadata && r[i].id == RecordId(strategy, i, now)
  {
    seq(|chunks|, i requires 0 <= i < |chunks| => Stored(RecordId(strategy, i, now), chunks[i].content, chunks[i].metadata))
  }

  /** The token lists the keyword index is built from: each chunk lower-cased and split on whitespace. */
  function Tokenized(chunks: seq<Doc>): (r: seq<seq<string>>)
    ensures |r| == |chunks|
    ensures forall i :: 0 <= i < |r| ==> r[i] == Words(Lower(chunks[i].content))
  {
    seq(|chunks|, i requires 0 <= i < |chunks| => Words(Lower(chunks[i].content)))
  }

  /** The records of collection `name`, none if it was never created. */
  function Records(collections: map<string, seq<Stored>>, name: string): seq<Stored> {
    if name in collections then collections[name] else []
  }

  /**
    The records of collection `name` once `get_or_create_collection` has
    opened it: those this agent already holds, or else those the persistent
    store kept from earlier runs.
  */
  function Opened(collections: map<string, seq<Stored>>, persisted: map<string, seq<Stored>>, name: string): seq<Stored> {
    if name in collections then collections[name] else Records(persisted, name)
  }

  /** The vector store refuses a batch without ids. */
  const EmptyBatch := ValueError("Expected IDs to be a non-empty list, got 0 IDs")

  class RagRetrievalAgent {
    const config: RetrievalConfig
    /** The records the persistent store (`PersistentClient`) holds when the agent opens it, by collection name. */
    const persisted: map<string, seq<Stored>>
    /** `self.collections`: every record each collection has received */
    var collections: map<string, seq<Stored>>
    /** `self.bm25_indices`: the token lists of each collection's latest batch */
    var keywordIndex: map<string, seq<seq<string>>>
    /** `self.documents_cache`: each collection's latest batch */
    var cache: map<string, seq<Doc>>

    /**
      A keyword index and a cache entry exist together, and only for an
      opened collection (a refused batch opens the collection without them).
    */
    ghost predicate Valid()
      reads this
    {
      keywordIndex.Keys <= collections.Keys && cache.Keys == keywordIndex.Keys
    }

    constructor(config: RetrievalConfig, persisted: map<string, seq<Stored>>)
      ensures this.config == config && this.persisted == persisted
      ensures collections == map[] && keywordIndex == map[] && cache == map[]
      ensures Valid()
    {
      this.config := config;
      this.persisted := persisted;
      collections := map[];
      keywordIndex := map[];
      cache := map[];
    }

    /**
      `index_documents(chunks, strategy)` at time `now`. The strategy's
      collection is opened on first use, with the records the persistent
      store kept, and keeps every record it is given; its keyword index and
      cache are replaced by this batch alone. An empty batch is refused by
      the vector store after the collection is opened.
    */
    method IndexDocuments(chunks: seq<Doc>, strategy: string, now: int) returns (r: Result<()>)
      requires Valid()
      modifies this
      ensures Valid()
      ensures strategy !in config.collectionOf ==>
        r == Err(KeyError(strategy)) && unchanged(this)
      ensures strategy in config.collectionOf && chunks == [] ==>
        var name := config.collectionOf[strategy];
        && r == Err(EmptyBatch)
        && collections == old(collections)[name := Opened(old(collections), persisted, name)]
        && keywordIndex == old(keywordIndex) && cache == old(cache)
      ensures strategy in config.collectionOf && chunks != [] ==>
        var name := config.collectionOf[strategy];
        && r == Ok(())
        && collections == old(collections)[name := Opened(old(collections), persisted, name) + Batch(strategy, chunks, now)]
        && keywordIndex == old(keywordIndex)[name := Tokenized(chunks)]
        && cache == old(cache)[name := chunks]
    {
      if strategy !in config.collectionOf {
        return Err(KeyError(strategy));
      }
      var name := config.collectionOf[strategy];
      if name !in collections {
        collections := collections[name := Records(persisted, name)];
      }
      if chunks == [] {
        return Err(EmptyBatch);
      }
      collections := collections[name := collections[name] + Batch(strategy, chunks, now)];
      keywordIndex := keywordIndex[name := Tokenized(chunks)];
      cache := cache[name := chunks];
      r := Ok(());
    }

    /**
      `retrieve(query, mode, well_name)`; `search` stands for the collection's
      similarity query and `keywordScores` for the BM25 scorer.
    */
    method Retrieve(query: string, mode: string, wellName: Option<string>,
                    search: (seq<Stored>, string, nat) -> seq<Hit>,
                    keywordScores: (seq<seq<string>>, seq<string>) -> seq<real>)
      returns (r: Result<seq<Retrieved>>)
      ensures r == Retrieval(config, collections, keywordIndex, query, mode, wellName, search, keywordScores)
    {
      var strategy := StrategyOf(mode);
      if strategy !in config.collectionOf {
        return Err(KeyError(strategy));
      }
      var name := config.collectionOf[strategy];
      var key := TopKKey(mode);
      if key !in config.topK {
        return Err(KeyError(key));
      }
      var topK := config.topK[key];
      if name !in collections {
        return Ok([]);
      }
      var hits := search(collections[name], query, 2 * topK);
      var keyword := KeywordScoresFor(keywordIndex, name, query, keywordScores);
      var fused := FuseHits(hits, keyword, config, wellName);
      if fused.Err? {
        return Err(fused.error);
      }
      r := Ok(Take(SortBy(fused.value, NegScore), topK));
    }
  }

  /** The loop of `retrieve`: every hit scored, in rank order, those of other wells skipped. */
  method FuseHits(hits: seq<Hit>, keyword: seq<real>, config: RetrievalConfig, wellName: Option<string>)
    returns (r: Result<seq<Retrieved>>)
    ensures r == Fused(hits, |hits|, keyword, config, wellName)
  {
    var chunks := [];
    var i := 0;
    while i < |hits|
      invariant 0 <= i <= |hits|
      invariant Fused(hits, i, keyword, config, wellName) == Ok(chunks)
    {
      var c := Candidate(hits[i], i, keyword, config, wellName);
      if c.Err? {
        FusedErrStays(hits, i + 1, |hits|, keyword, config, wellName);
        return Err(c.error);
      }
      if c.value.Some? {
        chunks := chunks + [c.value.value];
      }
      i := i + 1;
    }
    r := Ok(chunks);
  }

  /** The collection a retrieval mode searches: an unknown mode searches the factual one. */
  function StrategyOf(mode: string): string {
    if mode == "qa" then "factual_qa"
    else if mode == "extract" then "technical_extraction"
    else if mode == "summary" then "summary"
    else "factual_qa"
  }

  /** The configuration key of the result count: `top_k_factual` for `qa`, else `top_k_<mode>`. */
  function TopKKey(mode: string): string {
    "top_k_" + (if mode != "qa" then mode else "factual")
  }

  /** A well filter applies when a non-empty well name is given. */
  predicate Filtering(wellName: Option<string>) {
    wellName.Some? && wellName.value != ""
  }

  /** A chunk's `well_names` text names the well, ignoring case. */
  predicate NamesWell(meta: Meta, well: string) {
    var v := Get(meta, "well_names", Str(""));
    v.Str? && Contains(Upper(v.s), Upper(well))
  }

  /** The keyword score of the candidate at semantic rank `i`: none past the end of the scores. */
  function KeywordTerm(keyword: seq<real>, i: nat): real {
    if i < |keyword| then keyword[i] else 0.0
  }

  /** The fused score `w_s / (1 + distance) + w_k * keyword`. */
  function Score(config: RetrievalConfig, distance: real, keywordTerm: real): real
    requires 1.0 + distance != 0.0
  {
    config.semanticWeight * (1.0 / (1.0 + distance)) + config.keywordWeight * keywordTerm
  }

  /** The citation `retrieve` gives a chunk: source file and page. */
  function ShortCitation(meta: Meta): string {
    ToStr(Get(meta, "source_file", Str("Unknown"))) + " p." + ToStr(Get(meta, "page_number", Str("?")))
  }

  /** The chunk made of a hit that passes the filter. */
  function Fuse(hit: Hit, i: nat, keyword: seq<real>, config: RetrievalConfig): Retrieved
    requires 1.0 + hit.distance != 0.0
  {
    Retrieved(hit.doc, hit.meta, Score(config, hit.distance, KeywordTerm(keyword, i)), ShortCitation(hit.meta))
  }

  /**
    The hit at rank `i`: skipped (`None`) when it names another well; an
    error when its `well_names` is not a string (it has no `upper`) or its
    distance is -1 (division by zero).
  */
  function Candidate(hit: Hit, i: nat, keyword: seq<real>, config: RetrievalConfig, wellName: Option<string>)
    : Result<Option<Retrieved>>
  {
    if Filtering(wellName) && !Get(hit.meta, "well_names", Str("")).Str? then Err(AttributeError("upper"))
    else if Filtering(wellName) && !NamesWell(hit.meta, wellName.value) then Ok(None)
    else if 1.0 + hit.distance == 0.0 then Err(ZeroDivisionError)
    else Ok(Some(Fuse(hit, i, keyword, config)))
  }

  /** The chunks of the first `n` hits, or the first error among them. */
  function Fused(hits: seq<Hit>, n: nat, keyword: seq<real>, config: RetrievalConfig, wellName: Option<string>)
    : Result<seq<Retrieved>>
    requires n <= |hits|
  {
    if n == 0 then Ok([])
    else
      match Fused(hits, n - 1, keyword, config, wellName)
      case Err(e) => Err(e)
      case Ok(cs) =>
        match Candidate(hits[n - 1], n - 1, keyword, config, wellName)
        case Err(e) => Err(e)
        case Ok(None) => Ok(cs)
        case Ok(Some(c)) => Ok(cs + [c])
  }

  /** Sorting on the negated score is Python's `sort(reverse=True)`: descending, ties in place. */
  function NegScore(c: Retrieved): real {
    -c.score
  }

  /** What `retrieve` returns, or the error it raises. */
  function Retrieval(config: RetrievalConfig, collections: map<string, seq<Stored>>,
                     keywordIndex: map<string, seq<seq<string>>>,
                     query: string, mode: string, wellName: Option<string>,
                     search: (seq<Stored>, string, nat) -> seq<Hit>,
                     keywordScores: (seq<seq<string>>, seq<string>) -> seq<real>): Result<seq<Retrieved>>
  {
    RetrievalWith(config, collections, keywordIndex, query, StrategyOf(mode), TopKKey(mode), wellName, search, keywordScores)
  }

  /**
    Retrieval from the collection of `strategy` with as many results as the
    configuration entry `key` says.
  */
  function RetrievalWith(config: RetrievalConfig, collections: map<string, seq<Stored>>,
                         keywordIndex: map<string, seq<seq<string>>>,
                         query: string, strategy: string, key: string, wellName: Option<string>,
                         search: (seq<Stored>, string, nat) -> seq<Hit>,
                         keywordScores: (seq<seq<string>>, seq<string>) -> seq<real>): Result<seq<Retrieved>>
  {
    if strategy !in config.collectionOf then Err(KeyError(strategy))
    else if key !in config.topK then Err(KeyError(key))
    else if config.collectionOf[strategy] !in collections then Ok([])
    else
      match Candidates(config, collections, keywordIndex, query, strategy, key, wellName, search, keywordScores)
      case Err(e) => Err(e)
      case Ok(cs) => Ok(Take(SortBy(cs, NegScore), config.topK[key]))
  }

  /** The keyword scores of the query against a collection's index, none without an index. */
  function KeywordScoresFor(keywordIndex: map<string, seq<seq<string>>>, name: string, query: string,
                            keywordScores: (seq<seq<string>>, seq<string>) -> seq<real>): seq<real>
  {
    if name in keywordIndex then keywordScores(keywordIndex[name], Words(Lower(query))) else []
  }

  /** The fused, filtered candidates of a search for `2 * top_k` hits, in semantic rank order. */
  function Candidates(config: RetrievalConfig, collections: map<string, seq<Stored>>,
                      keywordIndex: map<string, seq<seq<string>>>,
                      query: string, strategy: string, key: string, wellName: Option<string>,
                      search: (seq<Stored>, string, nat) -> seq<Hit>,
                      keywordScores: (seq<seq<string>>, seq<string>) -> seq<real>): Result<seq<Retrieved>>
    requires strategy in config.collectionOf && key in config.topK
    requires config.collectionOf[strategy] in collections
  {
    var name := config.collectionOf[strategy];
    var hits := search(collections[name], query, 2 * config.topK[key]);
    Fused(hits, |hits|, KeywordScoresFor(keywordIndex, name, query, keywordScores), config, wellName)
  }

  // ---------------------------------------------------------------- properties

  /** Once a hit fails, the whole loop fails with that error. */
  lemma {:induction false} FusedErrStays(hits: seq<Hit>, n: nat, m: nat, keyword: seq<real>, config: RetrievalConfig,
                                         wellName: Option<string>)
    requires n <= m <= |hits| && Fused(hits, n, keyword, config, wellName).Err?
    ensures Fused(hits, m, keyword, config, wellName) == Fused(hits, n, keyword, config, wellName)
    decreases m - n
  {
    if n < m {
      FusedErrStays(hits, n, m - 1, keyword, config, wellName);
    }
  }

  /**
    The fused chunks are exactly the hits that pass the well filter, each
    scored from its own distance and the keyword score at its semantic rank.
  */
  lemma {:induction false} FusedMembers(hits: seq<Hit>, n: nat, keyword: seq<real>, config: RetrievalConfig,
                                        wellName: Option<string>)
    requires n <= |hits| && Fused(hits, n, keyword, config, wellName).Ok?
    ensures forall c :: c in Fused(hits, n, keyword, config, wellName).value <==>
      exists i :: 0 <= i < n && Candidate(hits[i], i, keyword, config, wellName) == Ok(Some(c))
    ensures forall i :: 0 <= i < n ==> Candidate(hits[i], i, keyword, config, wellName).Ok?
    decreases n
  {
    if n > 0 {
      FusedMembers(hits, n - 1, keyword, config, wellName);
    }
  }

  /** A hit that passes the filter becomes a chunk with its document, metadata and fused score. */
  lemma CandidateMeaning(hit: Hit, i: nat, keyword: seq<real>, config: RetrievalConfig, wellName: Option<string>, c: Retrieved)
    requires Candidate(hit, i, keyword, config, wellName) == Ok(Some(c))
    ensures Filtering(wellName) ==> NamesWell(hit.meta, wellName.value)
    ensures 1.0 + hit.distance != 0.0
    ensures c.content == hit.doc && c.metadata == hit.meta
    ensures c.score == config.semanticWeight / (1.0 + hit.distance)
                     + config.keywordWeight * (if i < |keyword| then keyword[i] else 0.0)
  {
  }

  /**
    With non-negative weights and the same keyword term, a strictly smaller
    non-negative distance never gives a lower score.
  */
  lemma ScoreMonotone(config: RetrievalConfig, d1: real, d2: real, k: real)
    requires config.semanticWeight >= 0.0 && 0.0 <= d1 < d2
    ensures Score(config, d1, k) >= Score(config, d2, k)
  {
    assert 1.0 / (1.0 + d1) >= 1.0 / (1.0 + d2) by {
      assert (1.0 / (1.0 + d1)) * (1.0 + d1) == 1.0;
      assert (1.0 / (1.0 + d2)) * (1.0 + d2) == 1.0;
    }
  }

  /** The configuration errors come first: an unknown strategy, then a missing `top_k` key. */
  lemma RetrievalConfigErrors(config: RetrievalConfig, collections: map<string, seq<Stored>>,
                              keywordIndex: map<string, seq<seq<string>>>,
                              query: string, strategy: string, key: string, wellName: Option<string>,
                              search: (seq<Stored>, string, nat) -> seq<Hit>,
                              keywordScores: (seq<seq<string>>, seq<string>) -> seq<real>)
    ensures strategy !in config.collectionOf ==>
      RetrievalWith(config, collections, keywordIndex, query, strategy, key, wellName, search, keywordScores) == Err(KeyError(strategy))
    ensures strategy in config.collectionOf && key !in config.topK ==>
      RetrievalWith(config, collections, keywordIndex, query, strategy, key, wellName, search, keywordScores) == Err(KeyError(key))
    ensures (strategy in config.collectionOf && key in config.topK && config.collectionOf[strategy] !in collections) ==>
      RetrievalWith(config, collections, keywordIndex, query, strategy, key, wellName, search, keywordScores) == Ok([])
  {
  }

  /** The modes, the collections they search and the keys of their result counts. */
  lemma StrategyOfModes(mode: string)
    ensures mode == "qa" ==> StrategyOf(mode) == "factual_qa" && TopKKey(mode) == "top_k_factual"
    ensures mode == "extract" ==> StrategyOf(mode) == "technical_extraction" && TopKKey(mode) == "top_k_extract"
    ensures mode == "summary" ==> StrategyOf(mode) == "summary" && TopKKey(mode) == "top_k_summary"
    ensures mode !in {"qa", "extract", "summary"} ==> StrategyOf(mode) == "factual_qa" && TopKKey(mode) == "top_k_" + mode
  {
  }

  /**
    A successful retrieval returns at most `top_k` chunks, in non-increasing
    score order, each of them one of the `2 * top_k` hits searched for and,
    under a well filter, naming that well.
  */
  lemma RetrievalResult(config: RetrievalConfig, collections: map<string, seq<Stored>>,
                        keywordIndex: map<string, seq<seq<string>>>,
                        query: string, strategy: string, key: string, wellName: Option<string>,
                        search: (seq<Stored>, string, nat) -> seq<Hit>,
                        keywordScores: (seq<seq<string>>, seq<string>) -> seq<real>)
    requires strategy in config.collectionOf && key in config.topK
    requires RetrievalWith(config, collections, keywordIndex, query, strategy, key, wellName, search, keywordScores).Ok?
    ensures var out := RetrievalWith(config, collections, keywordIndex, query, strategy, key, wellName, search, keywordScores).value;
      var name := config.collectionOf[strategy];
      var hits := if name in collections then search(collections[name], query, 2 * config.topK[key]) else [];
      && |out| <= config.topK[key]
      && (forall i, j :: 0 <= i < j < |out| ==> out[i].score >= out[j].score)
      && (Filtering(wellName) ==> forall c :: c in out ==> NamesWell(c.metadata, wellName.value))
      && (out != [] ==> name in collections)
      && (forall c :: c in out ==> exists i :: 0 <= i < |hits| && c.content == hits[i].doc && c.metadata == hits[i].meta)
      && (name in collections ==>
            var cs := Candidates(config, collections, keywordIndex, query, strategy, key, wellName, search, keywordScores);
            && cs.Ok?
            && multiset(out) <= multiset(cs.value)
            && forall x :: x in cs.value && x !in out ==>
                 |out| == config.topK[key] && forall i :: 0 <= i < |out| ==> out[i].score >= x.score)
  {
    var topK := config.topK[key];
    var name := config.collectionOf[strategy];
    var out := RetrievalWith(config, collections, keywordIndex, query, strategy, key, wellName, search, keywordScores).value;
    if name in collections {
      var hits := search(collections[name], query, 2 * topK);
      var keyword := KeywordScoresFor(keywordIndex, name, query, keywordScores);
      var cs := Fused(hits, |hits|, keyword, config, wellName).value;
      var sorted := SortBy(cs, NegScore);
      assert out == Take(sorted, topK);
      forall i, j | 0 <= i < j < |out| ensures out[i].score >= out[j].score {
        assert NegScore(sorted[i]) <= NegScore(sorted[j]);
      }
      RetrievalBest(config, collections, keywordIndex, query, strategy, key, wellName, search, keywordScores);
      FusedMembers(hits, |hits|, keyword, config, wellName);
      forall c | c in out
        ensures exists i :: 0 <= i < |hits| && c.content == hits[i].doc && c.metadata == hits[i].meta
        ensures Filtering(wellName) ==> NamesWell(c.metadata, wellName.value)
      {
        assert c in multiset(sorted);
        assert c in cs;
        var i :| 0 <= i < |hits| && Candidate(hits[i], i, keyword, config, wellName) == Ok(Some(c));
        CandidateMeaning(hits[i], i, keyword, config, wellName, c);
      }
    }
  }

  /**
    A successful retrieval from an existing collection keeps the best
    `top_k` candidates: it repeats none of them, and leaves one out only
    when it already returns `top_k` chunks that score at least as much.
  */
  lemma RetrievalBest(config: RetrievalConfig, collections: map<string, seq<Stored>>,
                      keywordIndex: map<string, seq<seq<string>>>,
                      query: string, strategy: string, key: string, wellName: Option<string>,
                      search: (seq<Stored>, string, nat) -> seq<Hit>,
                      keywordScores: (seq<seq<string>>, seq<string>) -> seq<real>)
    requires strategy in config.collectionOf && key in config.topK
    requires config.collectionOf[strategy] in collections
    requires RetrievalWith(config, collections, keywordIndex, query, strategy, key, wellName, search, keywordScores).Ok?
    ensures var out := RetrievalWith(config, collections, keywordIndex, query, strategy, key, wellName, search, keywordScores).value;
      var cs := Candidates(config, collections, keywordIndex, query, strategy, key, wellName, search, keywordScores);
      && cs.Ok?
      && multiset(out) <= multiset(cs.value)
      && forall x :: x in cs.value && x !in out ==>
           |out| == config.topK[key] && forall i :: 0 <= i < |out| ==> out[i].score >= x.score
  {
    var topK := config.topK[key];
    var cs := Candidates(config, collections, keywordIndex, query, strategy, key, wellName, search, keywordScores).value;
    var out := RetrievalWith(config, collections, keywordIndex, query, strategy, key, wellName, search, keywordScores).value;
    assert out == Take(SortBy(cs, NegScore), topK);
    TakeSortedSub(cs, NegScore, topK);
    forall x | x in cs && x !in out
      ensures |out| == topK && forall i :: 0 <= i < |out| ==> out[i].score >= x.score
    {
      TakeSortedTop(cs, NegScore, topK, x);
    }
  }

  /**
    Ties keep their semantic order: the returned chunks of any one score
    (given negated, `negScore`) are the first of the candidates with that
    score, in the order the search ranked them.
  */
  lemma RetrievalStable(config: RetrievalConfig, collections: map<string, seq<Stored>>,
                        keywordIndex: map<string, seq<seq<string>>>,
                        query: string, strategy: string, key: string, wellName: Option<string>,
                        search: (seq<Stored>, string, nat) -> seq<Hit>,
                        keywordScores: (seq<seq<string>>, seq<string>) -> seq<real>,
                        negScore: real)
    requires strategy in config.collectionOf && key in config.topK
    requires config.collectionOf[strategy] in collections
    requires Candidates(config, collections, keywordIndex, query, strategy, key, wellName, search, keywordScores).Ok?
    ensures RetrievalWith(config, collections, keywordIndex, query, strategy, key, wellName, search, keywordScores).Ok?
    ensures WithKey(RetrievalWith(config, collections, keywordIndex, query, strategy, key, wellName, search, keywordScores).value, NegScore, negScore)
         <= WithKey(Candidates(config, collections, keywordIndex, query, strategy, key, wellName, search, keywordScores).value, NegScore, negScore)
  {
    var cs := Candidates(config, collections, keywordIndex, query, strategy, key, wellName, search, keywordScores).value;
    var out := RetrievalWith(config, collections, keywordIndex, query, strategy, key, wellName, search, keywordScores).value;
    assert out == Take(SortBy(cs, NegScore), config.topK[key]);
    TakeSortedStable(cs, NegScore, negScore, config.topK[key]);
    assert WithKey(out, NegScore, negScore) <= WithKey(cs, NegScore, negScore);
  }

  /**
    Indexing twice into one collection keeps both batches there, after the
    records it already had; the cache and keyword index hold the last batch
    the store accepted.
  */
  method IndexTwice(agent: RagRetrievalAgent, a: seq<Doc>, b: seq<Doc>, strategy: string, t1: int, t2: int)
    requires agent.Valid() && strategy in agent.config.collectionOf
    modifies agent
    ensures agent.Valid()
    ensures var name := agent.config.collectionOf[strategy];
      && name in agent.collections
      && agent.collections[name] == Opened(old(agent.collections), agent.persisted, name) + Batch(strategy, a, t1) + Batch(strategy, b, t2)
      && agent.collections.Keys == old(agent.collections).Keys + {name}
      && (b != [] ==> name in agent.cache && agent.cache[name] == b && agent.keywordIndex[name] == Tokenized(b))
      && (b == [] && a != [] ==> name in agent.cache && agent.cache[name] == a && agent.keywordIndex[name] == Tokenized(a))
      && (a == [] && b == [] ==> agent.cache == old(agent.cache) && agent.keywordIndex == old(agent.keywordIndex))
  {
    var name := agent.config.collectionOf[strategy];
    ghost var base := Opened(agent.collections, agent.persisted, name);
    var r1 := agent.IndexDocuments(a, strategy, t1);
    assert name in agent.collections && agent.collections[name] == base + Batch(strategy, a, t1);
    var r2 := agent.IndexDocuments(b, strategy, t2);
  }
}
