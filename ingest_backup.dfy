/**
 * The ingest-side helpers: key sanitising, the document record built per
 * company, the ticker cleaning applied to the input table, the loop that
 * embeds the documents with a description, and the upload payloads.
 */
module IngestBackup {
  import opened Wrappers
  import opened Values
  import opened Text

  /** The keys of a freshly built document. */
  const DOC_KEYS: set<string> := {
    "ticker", "name", "sector", "country", "ebitda_musd", "rev_growth_pct", "market_cap_musd",
    "description", "_vector"}

  /** The key holding a document's embedding. */
  const VECTOR_KEY: string := "_vector"

  /** The error raised when there is nothing to upload. */
  const NO_VALID_DOCUMENTS: string := "No valid documents to upload."

  // ---------------------------------------------------------------------------
  // Keys

  /** `key.replace(".", "_")`: every dot becomes an underscore, every other character stays. */
  function SanitizeKey(key: string): (r: string)
    ensures |r| == |key|
    ensures forall i :: 0 <= i < |key| ==> r[i] == if key[i] == '.' then '_' else key[i]
  {
    if key == [] then []
    else [if key[0] == '.' then '_' else key[0]] + SanitizeKey(key[1..])
  }

  /** A sanitised key holds no dot, and sanitising it again changes nothing. */
  lemma SanitizeKeyIdempotent(key: string)
    ensures '.' !in SanitizeKey(key)
    ensures SanitizeKey(SanitizeKey(key)) == SanitizeKey(key)
  {
    var r := SanitizeKey(key);
    assert forall i :: 0 <= i < |r| ==> r[i] != '.';
  }

  // ---------------------------------------------------------------------------
  // Documents

  /**
   * The rounded figures of a company, in millions of USD and percent, as the
   * record stores them; the division and rounding are not part of this model.
   */
  datatype Figures = Figures(ebitdaMusd: real, revGrowthPct: real, marketCapMusd: real)

  /** `build_doc`: the record for one company from its ticker, name and provider info. */
  function BuildDoc(ticker: string, name: Value, info: Dict, figures: Figures): (d: Dict)
    ensures d.Keys == DOC_KEYS
    ensures d["ticker"].Str? && '.' !in d["ticker"].text
    ensures d["_vector"] == Null
  {
    SanitizeKeyIdempotent(ticker);
    map[
      "ticker" := Str(SanitizeKey(ticker)),
      "name" := name,
      "sector" := GetOr(info, "sector", Str("Unknown")),
      "country" := GetOr(info, "country", Str("Unknown")),
      "ebitda_musd" := Num(figures.ebitdaMusd),
      "rev_growth_pct" := Num(figures.revGrowthPct),
      "market_cap_musd" := Num(figures.marketCapMusd),
      "description" := GetOr(info, "longBusinessSummary", Str("")),
      VECTOR_KEY := Null]
  }

  /**
   * What the record takes from the provider: sector, country and summary
   * when the info has them (whatever their value, `None` included), and
   * "Unknown", "Unknown" and "" when it does not.
   */
  lemma BuildDocDefaults(ticker: string, name: Value, info: Dict, figures: Figures)
    ensures var d := BuildDoc(ticker, name, info, figures);
      && d["sector"] == (if "sector" in info then info["sector"] else Str("Unknown"))
      && d["country"] == (if "country" in info then info["country"] else Str("Unknown"))
      && d["description"] == (if "longBusinessSummary" in info then info["longBusinessSummary"] else Str(""))
      && d["name"] == name && d["ticker"] == Str(SanitizeKey(ticker))
      && (info == map[] ==> !Truthy(d["description"]))
  {
  }

  // ---------------------------------------------------------------------------
  // Tickers

  /** `x.split(":")[1]`: the part after the first colon, up to the next one; `None` (an IndexError) without a colon. */
  function CleanTicker(x: string): (r: Option<string>)
    ensures r.Some? <==> ':' in x
    ensures r.Some? ==> ':' !in r.value
  {
    SplitHasSecondPart(x, ':');
    var parts := Split(x, ':');
    if |parts| < 2 then None else Some(parts[1])
  }

  /** The cleaned ticker is the text right after the first colon, running to the next colon or the end. */
  lemma CleanTickerSegment(x: string)
    requires ':' in x
    ensures SecondPartAt(x, ':', IndexOf(x, ':') + 1, CleanTicker(x).value)
  {
    SplitHasSecondPart(x, ':');
    SplitSecondPart(x, ':');
  }

  /** An `EXCHANGE:SYMBOL` ticker cleans to its symbol when neither part holds a colon. */
  lemma CleanTickerDropsExchange(exchange: string, symbol: string)
    requires ':' !in exchange && ':' !in symbol
    ensures CleanTicker(exchange + [':'] + symbol) == Some(symbol)
  {
    var x := exchange + [':'] + symbol;
    var n := |exchange|;
    assert x[..n] == exchange && x[n] == ':';
    assert IndexOf(x, ':') == n;
    assert x[n + 1..] == symbol;
    assert Split(symbol, ':') == [symbol];
    assert Split(x, ':') == [exchange] + [symbol];
  }

  // ---------------------------------------------------------------------------
  // Embedding

  /** The documents the embedding loop can read: a `description` key whose truthy values are strings. */
  predicate Describable(d: Dict)
  {
    "description" in d && (Truthy(d["description"]) ==> d["description"].Str?)
  }

  /** `not d['description']` fails: the document is embedded and kept. */
  predicate Described(d: Dict)
    requires Describable(d)
  {
    Truthy(d["description"])
  }

  /** The embedding of a described document's text. */
  function EmbeddingOf(d: Dict, embed: string -> seq<real>): seq<real>
    requires Describable(d) && Described(d)
  {
    embed(d["description"].text)
  }

  /** A described document with its embedding stored under `_vector`. */
  function WithEmbedding(d: Dict, embed: string -> seq<real>): Dict
    requires Describable(d) && Described(d)
  {
    d[VECTOR_KEY := NumList(EmbeddingOf(d, embed))]
  }

  /** The documents the loop keeps, in order, each with its embedding under `_vector`. */
  function Embedded(docs: seq<Dict>, embed: string -> seq<real>): seq<Dict>
    requires forall i :: 0 <= i < |docs| ==> Describable(docs[i])
  {
    if docs == [] then []
    else
      Embedded(docs[..|docs| - 1], embed)
      + (if Described(docs[|docs| - 1]) then [WithEmbedding(docs[|docs| - 1], embed)] else [])
  }

  /** The embeddings of the kept documents, in the same order. */
  function Vectors(docs: seq<Dict>, embed: string -> seq<real>): seq<seq<real>>
    requires forall i :: 0 <= i < |docs| ==> Describable(docs[i])
  {
    if docs == [] then []
    else
      Vectors(docs[..|docs| - 1], embed)
      + (if Described(docs[|docs| - 1]) then [EmbeddingOf(docs[|docs| - 1], embed)] else [])
  }

  /** The `for d in docs` loop: skips documents without a description, embeds and collects the rest. */
  method EmbedDocs(docs: seq<Dict>, embed: string -> seq<real>) returns (validDocs: seq<Dict>, vectors: seq<seq<real>>)
    requires forall i :: 0 <= i < |docs| ==> Describable(docs[i])
    ensures validDocs == Embedded(docs, embed) && vectors == Vectors(docs, embed)
  {
    validDocs := [];
    vectors := [];
    var i := 0;
    while i < |docs|
      invariant 0 <= i <= |docs|
      invariant validDocs == Embedded(docs[..i], embed) && vectors == Vectors(docs[..i], embed)
    {
      var d := docs[i];
      assert Describable(d);
      assert docs[..i + 1][..i] == docs[..i];
      if !Truthy(d["description"]) {
        i := i + 1;
        continue;
      }
      var vector := embed(d["description"].text);
      d := d[VECTOR_KEY := NumList(vector)];
      validDocs := validDocs + [d];
      vectors := vectors + [vector];
      i := i + 1;
    }
    assert docs[..|docs|] == docs;
  }

  /** The indices of the described documents, in increasing order. */
  ghost function DescribedIndices(docs: seq<Dict>): seq<int>
    requires forall i :: 0 <= i < |docs| ==> Describable(docs[i])
  {
    if docs == [] then []
    else DescribedIndices(docs[..|docs| - 1]) + (if Described(docs[|docs| - 1]) then [|docs| - 1] else [])
  }

  /**
   * The described indices increase strictly, each names a described
   * document, and every described document is among them.
   */
  lemma {:induction false} DescribedIndicesExact(docs: seq<Dict>)
    requires forall i :: 0 <= i < |docs| ==> Describable(docs[i])
    ensures var idx := DescribedIndices(docs);
      && (forall j :: 0 <= j < |idx| ==> 0 <= idx[j] < |docs| && Described(docs[idx[j]]))
      && (forall j, l :: 0 <= j < l < |idx| ==> idx[j] < idx[l])
      && (forall i :: 0 <= i < |docs| && Described(docs[i]) ==> i in idx)
  {
    if docs != [] {
      var init := docs[..|docs| - 1];
      DescribedIndicesExact(init);
      var idx0 := DescribedIndices(init);
      forall i | 0 <= i < |docs| && Described(docs[i]) ensures i in DescribedIndices(docs) {
        if i < |docs| - 1 {
          assert docs[i] == init[i];
          assert i in idx0;
        }
      }
      forall j | 0 <= j < |idx0| ensures docs[idx0[j]] == init[idx0[j]] {
      }
    }
  }

  /**
   * The `j`-th kept document is the `j`-th described document, unchanged
   * except that `_vector` holds its embedding.
   */
  lemma {:induction false} EmbeddedSelectsDescribed(docs: seq<Dict>, embed: string -> seq<real>)
    requires forall i :: 0 <= i < |docs| ==> Describable(docs[i])
    ensures var idx := DescribedIndices(docs);
      && |Embedded(docs, embed)| == |idx|
      && forall j :: 0 <= j < |idx| ==>
           0 <= idx[j] < |docs| && Described(docs[idx[j]]) && Embedded(docs, embed)[j] == WithEmbedding(docs[idx[j]], embed)
  {
    if docs != [] {
      var init := docs[..|docs| - 1];
      EmbeddedSelectsDescribed(init, embed);
      var idx0 := DescribedIndices(init);
      forall j | 0 <= j < |idx0| ensures docs[idx0[j]] == init[idx0[j]] {
      }
    }
  }

  /** The `j`-th collected vector is the embedding of the `j`-th described document. */
  lemma {:induction false} VectorsOfDescribed(docs: seq<Dict>, embed: string -> seq<real>)
    requires forall i :: 0 <= i < |docs| ==> Describable(docs[i])
    ensures var idx := DescribedIndices(docs);
      && |Vectors(docs, embed)| == |idx|
      && forall j :: 0 <= j < |idx| ==>
           0 <= idx[j] < |docs| && Described(docs[idx[j]]) && Vectors(docs, embed)[j] == EmbeddingOf(docs[idx[j]], embed)
  {
    if docs != [] {
      var init := docs[..|docs| - 1];
      VectorsOfDescribed(init, embed);
      var idx0 := DescribedIndices(init);
      forall j | 0 <= j < |idx0| ensures docs[idx0[j]] == init[idx0[j]] {
      }
    }
  }

  // ---------------------------------------------------------------------------
  // Upload payloads

  /** An object to insert: its property bag and its vector. */
  datatype DataObject = DataObject(properties: Dict, vector: Value)

  /** `{k: v for k, v in d.items() if k != "_vector"}`. */
  function WithoutVector(d: Dict): (r: Dict)
    ensures r.Keys == d.Keys - {VECTOR_KEY}
    ensures forall k :: k in r ==> r[k] == d[k]
  {
    map k | k in d && k != VECTOR_KEY :: d[k]
  }

  /** A document that gets a payload: it has a `_vector` that is not `None`. */
  predicate HasVector(d: Dict)
  {
    VECTOR_KEY in d && !d[VECTOR_KEY].Null?
  }

  /** The payload comprehension: one object per document with a vector, in document order. */
  function Payloads(docs: seq<Dict>): (r: seq<DataObject>)
    ensures |r| <= |docs|
    ensures forall j :: 0 <= j < |r| ==> VECTOR_KEY !in r[j].properties && !r[j].vector.Null?
  {
    if docs == [] then []
    else
      var d := docs[|docs| - 1];
      Payloads(docs[..|docs| - 1]) + (if HasVector(d) then [DataObject(WithoutVector(d), d[VECTOR_KEY])] else [])
  }

  /** The indices of the documents with a vector, in increasing order. */
  ghost function VectorIndices(docs: seq<Dict>): seq<int>
  {
    if docs == [] then []
    else VectorIndices(docs[..|docs| - 1]) + (if HasVector(docs[|docs| - 1]) then [|docs| - 1] else [])
  }

  /**
   * The vector indices increase strictly, each names a document with a
   * vector, and every document with a vector is among them.
   */
  lemma {:induction false} VectorIndicesExact(docs: seq<Dict>)
    ensures var idx := VectorIndices(docs);
      && (forall j :: 0 <= j < |idx| ==> 0 <= idx[j] < |docs| && HasVector(docs[idx[j]]))
      && (forall j, l :: 0 <= j < l < |idx| ==> idx[j] < idx[l])
      && (forall i :: 0 <= i < |docs| && HasVector(docs[i]) ==> i in idx)
  {
    if docs != [] {
      var init := docs[..|docs| - 1];
      VectorIndicesExact(init);
      var idx0 := VectorIndices(init);
      forall i | 0 <= i < |docs| && HasVector(docs[i]) ensures i in VectorIndices(docs) {
        if i < |docs| - 1 {
          assert docs[i] == init[i];
          assert i in idx0;
        }
      }
      forall j | 0 <= j < |idx0| ensures docs[idx0[j]] == init[idx0[j]] {
      }
    }
  }

  /**
   * For any document list, the `j`-th payload comes from the `j`-th document
   * with a vector: its other fields as properties and its `_vector` as vector.
   */
  lemma {:induction false} PayloadsSelectVectors(docs: seq<Dict>)
    ensures var idx := VectorIndices(docs);
      && |Payloads(docs)| == |idx|
      && forall j :: 0 <= j < |idx| ==>
           0 <= idx[j] < |docs| && HasVector(docs[idx[j]])
           && Payloads(docs)[j] == DataObject(WithoutVector(docs[idx[j]]), docs[idx[j]][VECTOR_KEY])
  {
    if docs != [] {
      var init := docs[..|docs| - 1];
      PayloadsSelectVectors(init);
      var idx0 := VectorIndices(init);
      forall j | 0 <= j < |idx0| ensures docs[idx0[j]] == init[idx0[j]] {
      }
    }
  }

  /** Building the payloads of a concatenation builds each part's. */
  lemma {:induction false} PayloadsConcat(a: seq<Dict>, b: seq<Dict>)
    ensures Payloads(a + b) == Payloads(a) + Payloads(b)
    decreases |b|
  {
    if b == [] {
      assert a + b == a;
    } else {
      var b' := b[..|b| - 1];
      assert (a + b)[..|a + b| - 1] == a + b';
      PayloadsConcat(a, b');
    }
  }

  /**
   * After the embedding loop every kept document yields a payload: the
   * payloads match the kept documents one for one, each carrying the
   * document's other fields unchanged and its embedding as vector.
   */
  lemma {:induction false} PayloadsOfEmbedded(docs: seq<Dict>, embed: string -> seq<real>)
    requires forall i :: 0 <= i < |docs| ==> Describable(docs[i])
    ensures var kept := Embedded(docs, embed);
      && |Payloads(kept)| == |kept| == |Vectors(docs, embed)|
      && forall j :: 0 <= j < |kept| ==>
           Payloads(kept)[j] == DataObject(WithoutVector(kept[j]), NumList(Vectors(docs, embed)[j]))
  {
    if docs != [] {
      var init := docs[..|docs| - 1];
      var last := docs[|docs| - 1];
      PayloadsOfEmbedded(init, embed);
      var kept0 := Embedded(init, embed);
      var one := if Described(last) then [WithEmbedding(last, embed)] else [];
      var vs := if Described(last) then [EmbeddingOf(last, embed)] else [];
      assert Embedded(docs, embed) == kept0 + one;
      assert Vectors(docs, embed) == Vectors(init, embed) + vs;
      PayloadsConcat(kept0, one);
      if Described(last) {
        PayloadOfEmbedding(last, embed);
      }
    }
  }

  /** A document with its embedding yields one object: its other fields and the embedding. */
  lemma PayloadOfEmbedding(d: Dict, embed: string -> seq<real>)
    requires Describable(d) && Described(d)
    ensures Payloads([WithEmbedding(d, embed)]) == [DataObject(WithoutVector(WithEmbedding(d, embed)), NumList(EmbeddingOf(d, embed)))]
  {
    var e := WithEmbedding(d, embed);
    assert [e][..0] == [];
  }

  /** The upload step: the payloads, or the error raised when there are no documents at all. */
  function PrepareUpload(docs: seq<Dict>): (r: Result<seq<DataObject>, string>)
    ensures r.Failure? <==> docs == []
    ensures r.Failure? ==> r.error == NO_VALID_DOCUMENTS
    ensures r.Success? ==> r.value == Payloads(docs) && |r.value| <= |docs|
  {
    if docs == [] then Failure(NO_VALID_DOCUMENTS) else Success(Payloads(docs))
  }
}
