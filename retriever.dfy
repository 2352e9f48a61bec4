/**
 * The retriever node: picks the BM25 keyword string, issues a hybrid or a
 * pure nearest-vector search against the document store (an oracle here),
 * keeps the hits whose relevance score clears the gate, tags each with its
 * score, and records an error when nothing survives.
 */
module Retriever {
  import opened Wrappers
  import opened Values
  import opened Text
  import opened Filters
  import opened State

  /** A hit must score strictly above this to be kept. */
  const RELEVANCE_GATE: real := 0.01

  /** The weight of the vector part in a hybrid search. */
  const HYBRID_ALPHA: real := 0.7

  /** The properties the keyword part of a hybrid search is run over. */
  const QUERY_PROPERTIES: seq<string> := ["summary"]

  /** The error recorded when no hit survives the gate. */
  const NO_DOCUMENTS: string := "No documents found matching the query."

  /** The key under which a kept document carries its score. */
  const RELEVANCE_KEY: string := "_relevance"

  /** How the keyword and vector rankings of a hybrid search are fused. */
  datatype Fusion = RelativeScore

  /** The two searches the node can issue. */
  datatype SearchRequest =
    | Hybrid(query: string, vector: Option<seq<real>>, alpha: real, properties: seq<string>,
             fusion: Fusion, limit: int, filter: Option<Filter>)
    | NearVector(vector: Option<seq<real>>, limit: int, filter: Option<Filter>)

  /** The metadata returned with a hit (score for hybrid, distance for vector searches). */
  datatype Metadata = Metadata(score: Option<real>, distance: Option<real>)

  /** One returned object: its property bag and its metadata, either possibly absent. */
  datatype Hit = Hit(properties: Option<Dict>, metadata: Option<Metadata>)

  // ---------------------------------------------------------------------------
  // The keyword string

  /**
   * The inputs the keyword expression evaluates without raising: a truthy
   * `keyword_query` attribute, or a structured query whose `keywords` entry
   * is missing or a list of strings.
   */
  predicate KeywordsReadable(keywordQuery: Option<string>, structuredQuery: Option<Dict>)
  {
    || (keywordQuery.Some? && keywordQuery.value != "")
    || (structuredQuery.Some? && GetOr(structuredQuery.value, "keywords", StrList([])).StrList?)
  }

  /** `" ".join(keywords)`, with no keywords joined to "". */
  function JoinedKeywords(structuredQuery: Dict): string
    requires GetOr(structuredQuery, "keywords", StrList([])).StrList?
  {
    Join(" ", GetOr(structuredQuery, "keywords", StrList([])).items)
  }

  /** `(getattr(state, "keyword_query", "") or " ".join(keywords)).strip()`. */
  function KeywordString(keywordQuery: Option<string>, structuredQuery: Option<Dict>): string
    requires KeywordsReadable(keywordQuery, structuredQuery)
  {
    if keywordQuery.Some? && keywordQuery.value != "" then Strip(keywordQuery.value)
    else Strip(JoinedKeywords(structuredQuery.value))
  }

  /**
   * A truthy `keyword_query` wins over the keywords; without one the keywords
   * are joined with single spaces, and no keywords give the empty string.
   * Either way the result has no surrounding whitespace and is a slice of
   * its source with only whitespace cut off.
   */
  lemma KeywordStringChoice(keywordQuery: Option<string>, structuredQuery: Option<Dict>)
    requires KeywordsReadable(keywordQuery, structuredQuery)
    ensures var k := KeywordString(keywordQuery, structuredQuery);
      && (keywordQuery.Some? && keywordQuery.value != "" ==> exists i, j :: SpaceOutside(keywordQuery.value, i, j) && k == keywordQuery.value[i..j])
      && (!(keywordQuery.Some? && keywordQuery.value != "") ==>
            exists i, j :: SpaceOutside(JoinedKeywords(structuredQuery.value), i, j) && k == JoinedKeywords(structuredQuery.value)[i..j])
      && (!(keywordQuery.Some? && keywordQuery.value != "") && "keywords" !in structuredQuery.value ==> k == "")
      && (k == [] || (!IsSpace(k[0]) && !IsSpace(k[|k| - 1])))
  {
    if keywordQuery.Some? && keywordQuery.value != "" {
      StripIsTrimmedSlice(keywordQuery.value);
    } else {
      StripIsTrimmedSlice(JoinedKeywords(structuredQuery.value));
    }
  }

  // ---------------------------------------------------------------------------
  // The search

  /** The search issued for a keyword string: hybrid when it is non-empty, else nearest-vector. */
  function SearchFor(keywords: string, vector: Option<seq<real>>, filter: Option<Filter>, limit: int): (r: SearchRequest)
    ensures r.Hybrid? <==> keywords != ""
    ensures r.vector == vector && r.limit == limit && r.filter == filter
    ensures r.Hybrid? ==>
      r.query == keywords && r.alpha == HYBRID_ALPHA && r.properties == ["summary"] && r.fusion == RelativeScore
  {
    if keywords != "" then Hybrid(keywords, vector, HYBRID_ALPHA, QUERY_PROPERTIES, RelativeScore, limit, filter)
    else NearVector(vector, limit, filter)
  }

  // ---------------------------------------------------------------------------
  // Marshalling the hits

  /** The relevance gate: metadata present, a score present, the score strictly above 0.01. */
  predicate Passes(h: Hit)
  {
    h.metadata.Some? && h.metadata.value.score.Some? && h.metadata.value.score.value > RELEVANCE_GATE
  }

  function ScoreOf(h: Hit): real
    requires Passes(h)
  {
    h.metadata.value.score.value
  }

  /** A kept hit's property bag (`{}` when absent) with its score under `_relevance`. */
  function Tagged(h: Hit): Dict
    requires Passes(h)
  {
    h.properties.GetOr(map[])[RELEVANCE_KEY := Num(ScoreOf(h))]
  }

  /** What one hit contributes to the document list. */
  function Pick(h: Hit): seq<Dict>
  {
    if Passes(h) then [Tagged(h)] else []
  }

  /** The documents the marshalling loop collects from `hits`, in order. */
  function Kept(hits: seq<Hit>): seq<Dict>
  {
    if hits == [] then [] else Kept(hits[..|hits| - 1]) + Pick(hits[|hits| - 1])
  }

  /** The marshalling loop over `response.objects`. */
  method Marshal(hits: seq<Hit>) returns (docs: seq<Dict>)
    ensures docs == Kept(hits)
  {
    docs := [];
    var i := 0;
    while i < |hits|
      invariant 0 <= i <= |hits|
      invariant docs == Kept(hits[..i])
    {
      var h := hits[i];
      var props := h.properties.GetOr(map[]);
      if h.metadata.Some? {
        if h.metadata.value.score.Some? && h.metadata.value.score.value > RELEVANCE_GATE {
          props := props[RELEVANCE_KEY := Num(h.metadata.value.score.value)];
          docs := docs + [props];
        }
      }
      assert hits[..i + 1][..i] == hits[..i];
      i := i + 1;
    }
    assert hits[..|hits|] == hits;
  }

  /** Marshalling a concatenation marshals each part. */
  lemma {:induction false} KeptConcat(a: seq<Hit>, b: seq<Hit>)
    ensures Kept(a + b) == Kept(a) + Kept(b)
    decreases |b|
  {
    if b == [] {
      assert a + b == a;
    } else {
      var b' := b[..|b| - 1];
      assert (a + b)[..|a + b| - 1] == a + b';
      KeptConcat(a, b');
    }
  }

  /** The indices of the hits that pass the gate, in increasing order. */
  ghost function PassingIndices(hits: seq<Hit>): seq<int>
  {
    if hits == [] then []
    else PassingIndices(hits[..|hits| - 1]) + (if Passes(hits[|hits| - 1]) then [|hits| - 1] else [])
  }

  /**
   * The passing indices increase strictly, each names a hit that passes the
   * gate, and no passing hit is missed.
   */
  lemma {:induction false} PassingIndicesExact(hits: seq<Hit>)
    ensures var idx := PassingIndices(hits);
      && (forall j :: 0 <= j < |idx| ==> 0 <= idx[j] < |hits| && Passes(hits[idx[j]]))
      && (forall j, l :: 0 <= j < l < |idx| ==> idx[j] < idx[l])
      && (forall i :: 0 <= i < |hits| && Passes(hits[i]) ==> i in idx)
  {
    if hits != [] {
      var init := hits[..|hits| - 1];
      PassingIndicesExact(init);
      var idx0 := PassingIndices(init);
      forall i | 0 <= i < |hits| && Passes(hits[i]) ensures i in PassingIndices(hits) {
        if i < |hits| - 1 {
          assert hits[i] == init[i];
          assert i in idx0;
        }
      }
      forall j | 0 <= j < |idx0| ensures hits[idx0[j]] == init[idx0[j]] {
      }
    }
  }

  /**
   * The kept documents are the passing hits, tagged, in backend order: the
   * `j`-th document comes from the `j`-th passing hit.
   */
  lemma {:induction false} KeptSelectsPassing(hits: seq<Hit>)
    ensures var idx := PassingIndices(hits);
      && |Kept(hits)| == |idx|
      && forall j :: 0 <= j < |idx| ==> 0 <= idx[j] < |hits| && Passes(hits[idx[j]]) && Kept(hits)[j] == Tagged(hits[idx[j]])
  {
    if hits != [] {
      var init := hits[..|hits| - 1];
      KeptSelectsPassing(init);
      var idx0 := PassingIndices(init);
      forall j | 0 <= j < |idx0| ensures hits[idx0[j]] == init[idx0[j]] {
      }
    }
  }

  /** The list has at most one document per returned object, and is empty exactly when no hit passes. */
  lemma KeptBounds(hits: seq<Hit>)
    ensures |Kept(hits)| <= |hits|
    ensures Kept(hits) == [] <==> forall i :: 0 <= i < |hits| ==> !Passes(hits[i])
  {
    KeptSelectsPassing(hits);
    PassingIndicesExact(hits);
    var idx := PassingIndices(hits);
    RankBound(idx, |hits|);
  }

  /** A strictly increasing list of indices below `n` has at most `n` entries. */
  lemma {:induction false} RankBound(idx: seq<int>, n: int)
    requires 0 <= n
    requires forall j :: 0 <= j < |idx| ==> 0 <= idx[j] < n
    requires forall j, l :: 0 <= j < l < |idx| ==> idx[j] < idx[l]
    ensures |idx| <= n
  {
    if idx != [] {
      var last := idx[|idx| - 1];
      var init := idx[..|idx| - 1];
      forall j | 0 <= j < |init| ensures 0 <= init[j] < last {
        assert init[j] == idx[j];
      }
      RankBound(init, last);

    }
  }

  /** Every kept document carries a relevance strictly above the gate. */
  lemma KeptAreRelevant(hits: seq<Hit>)
    ensures forall d: Dict :: d in Kept(hits) ==> RELEVANCE_KEY in d && d[RELEVANCE_KEY].Num? && d[RELEVANCE_KEY].number > RELEVANCE_GATE
  {
    KeptSelectsPassing(hits);
  }

  /** The gate is strict: a score of exactly 0.01 is dropped, anything above kept, a missing score dropped. */
  lemma GateBoundary(props: Option<Dict>)
    ensures !Passes(Hit(props, Some(Metadata(Some(0.01), None))))
    ensures Passes(Hit(props, Some(Metadata(Some(0.011), None))))
    ensures !Passes(Hit(props, Some(Metadata(None, Some(0.2))))) && !Passes(Hit(props, None))
  {
  }

  // ---------------------------------------------------------------------------
  // The node

  /**
   * `retriever`: searches with the keyword string, the state's vector and
   * filter, replaces `retrieved_docs` by the kept hits and records the error
   * when there are none. Nothing else in the state changes.
   */
  method Retrieve(state: InvestorState, backend: SearchRequest -> seq<Hit>, limit: int)
    requires KeywordsReadable(state.keywordQuery, state.structuredQuery)
    modifies state`retrievedDocs, state`error
    ensures state.retrievedDocs
      == Kept(backend(SearchFor(KeywordString(state.keywordQuery, state.structuredQuery), state.nearVector, state.whereFilter, limit)))
    ensures state.error == if state.retrievedDocs == [] then Some(NO_DOCUMENTS) else old(state.error)
  {
    var keywords := KeywordString(state.keywordQuery, state.structuredQuery);
    var response;
    if keywords != "" {
      response := backend(Hybrid(keywords, state.nearVector, HYBRID_ALPHA, QUERY_PROPERTIES, RelativeScore, limit, state.whereFilter));
    } else {
      response := backend(NearVector(state.nearVector, limit, state.whereFilter));
    }
    var docs := Marshal(response);
    state.retrievedDocs := docs;
    if docs == [] {
      state.error := Some(NO_DOCUMENTS);
    }
  }
}
