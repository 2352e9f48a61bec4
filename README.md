# AgentInvest query pipeline — a Dafny model

AgentInvest turns a free-text investment screening request into a list of candidate
companies. This project models, in Dafny, the part of the service that does this:

- **The clarifier node.** It asks a chat model to fill the `StructuredQuery` schema and
  validates the answer. It stores the dump and derives the `need_clarification` flag and the
  budget.
- **The query-fix node.** It infers a missing sector from the keywords and fills default
  thresholds. It builds the search backend's `where` filter and the `nearText` concept list.
- **The retriever node.** It picks hybrid or pure-vector search from the keyword string. It
  keeps the hits whose score clears the 0.01 relevance gate, in backend order, and records
  an error when none do.
- **The two engines.** The full engine runs `Parser → Enricher → Retriever` with an early
  exit after `Parser`. The partial engine that the HTTP service runs is
  `clarifier → query_fix`. Both are built with a LangGraph-style builder and run by a
  generic driver with LangGraph's default recursion limit of 25.
- **The shared state.** `InvestorState` is a class whose fields the nodes update in place.
- **The theme taxonomy.** The closed theme vocabulary and each theme's parent group.
- **The ingestion helpers.** Key sanitising, the per-company document and its defaults,
  ticker cleaning, the description-gated embedding loop, and the upload payloads with their
  "No valid documents to upload." error.

Python dictionaries are `map<string, Value>`. `Value` covers `None`, strings, numbers and
lists, and `Truthy` is Python's truthiness. The chat model, the search backend and the
embedder are function-valued parameters (oracles). A node that would raise in Python
returns `ok == false` and leaves the state as it found it; the driver then stops with
`Raised(node)`.

Each loop or state change is a method proved against a specification function:

| method | specification function |
|---|---|
| `InferSectorFromKeywords` | `InferredSector` |
| `FillDefaults` | `ApplyDefaults` |
| `BuildWhere` | `Where` |
| `Complete` | `Fixed` |
| `AssembleConcepts` | `Concepts` |
| `Marshal` | `Kept` |
| `EmbedDocs` | `Embedded` / `Vectors` |
| `Invoke` | `Walk` / `Finished` |

The lemmas then state what the source promises about those functions.

Modules, one file each: `Wrappers`, `Values`, `Text` (string helpers: `join`, `lower`,
`in`, `strip`, `split`), `ThemeTaxonomy`, `StructuredQueries`, `Filters`, `State`,
`QueryFix`, `Retriever`, `Clarifier`, `StateGraphs` (builder and driver), `BuildGraph`,
`BuildPartialGraph`, `IngestBackup`.

### Behaviour of the code worth noting

- **Clarification.** The flag is set when `sector is None and keywords is None`; `theme`
  plays no part. A validated extraction always carries a keyword list, so the flag is
  never set after a successful clarifier (`DumpNeverNeedsClarification`).
- **Defaults.** The defaulted keys are `ebitda_min`, `revenue_min`, `arr_growth_min` (0.0)
  and `risk_profile` ("medium"). `arr_growth_min` is not a field of `StructuredQuery`, and
  its `rev_growth_min` and `market_cap_min` fields are never read by the filter.
- **Filter clauses.** The clauses come in the order sector, `ebitda_musd`,
  `market_cap_musd` (from `revenue_min`), `rev_growth_pct` (from `arr_growth_min`),
  `risk_profile`. Theme and country never produce a clause.
- **Concepts.** The list is the keywords, then the theme, then the sector; country is never
  added. An empty list becomes `["high-potential company"]`.
- **Search mode.** Hybrid search is chosen whenever the keyword string is non-empty,
  whatever the vector. Results keep the backend's order; the node neither sorts nor
  truncates them.
- **Partial engine edges.** The partial engine's edges pass a `condition=` keyword to
  `add_edge`. The model treats each such edge as a guarded edge. The `"END"` string names
  no registered node, so the run stops there.

## Model

| member | source | states |
|---|---|---|
| Text.ContainsIff | agent_service/graph/nodes/query_fix.py:37 | `kw in blob` holds exactly when `kw` occurs at some position of `blob` |
| Text.StripIsTrimmedSlice | agent_service/graph/nodes/retriever.py:45-48 | `strip()` returns a slice of its input with only whitespace cut off either end, and neither end of the result is whitespace |
| Text.StripEmptyIff | agent_service/graph/nodes/retriever.py:45-48 | a stripped string is empty exactly when the input is all whitespace |
| Text.IndexOf | ingest_backup.py:78 | the first position of a character, or -1 exactly when it does not occur |
| Text.Split | ingest_backup.py:78 | `split(sep)` gives at least one part and no part contains the separator |
| Text.SplitJoin | ingest_backup.py:78 | joining the parts of `split(sep)` with `sep` gives the input back |
| Text.SplitHasSecondPart | ingest_backup.py:78 | `split(sep)` has a second part exactly when the separator occurs |
| Text.SplitSecondPart | ingest_backup.py:78 | the second part is the text after the first separator, up to the next one or the end |
| ThemeTaxonomy.ThemesDistinct | agent_service/theme_taxonomy.py:1-28 | the theme list has 26 entries, all distinct |
| ThemeTaxonomy.ParentMapTotal | agent_service/theme_taxonomy.py:31-62 | the parent map is defined on exactly the listed themes |
| ThemeTaxonomy.ParentsAreGroups | agent_service/theme_taxonomy.py:31-62 | every parent is one of the seven groups, and every group is the parent of some theme |
| ThemeTaxonomy.SecurityAndEsgParents | agent_service/theme_taxonomy.py:31-62 | the three security themes belong to Cybersecurity, and ESG analytics belongs to clean tech |
| StructuredQueries.DefaultsFromEmptyArguments | agent_service/graph/structured_query.py:39-67 | validating `{}` gives the field defaults: keywords `[]`, everything else `None` |
| StructuredQueries.ValidatedIsValid | agent_service/graph/structured_query.py:36-67 | a record that validation accepts has its sector and theme in their vocabularies |
| StructuredQueries.NullKeywordsRejected | agent_service/graph/structured_query.py:45-48 | an explicit `null` for the `List[str]` keywords field fails validation |
| StructuredQueries.DumpValidateRoundTrip | agent_service/graph/structured_query.py:39-67 | validating the dump of a valid record gives the record back, and the dump has exactly the declared fields |
| State.InvestorState.constructor | agent_service/graph/state.py:3-11 | a fresh state holds the user query, with every other field at its declared default |
| QueryFix.FirstMatchIsFirst | agent_service/graph/nodes/query_fix.py:36-39 | the table scan finds nothing exactly when no entry occurs in the text; otherwise it returns the sector of the first entry that occurs |
| QueryFix.InferSectorFromKeywords | agent_service/graph/nodes/query_fix.py:32-39 | the loop returns the inferred sector: `None` for missing or empty keywords, else the first table entry found in the lower-cased, space-joined keywords |
| QueryFix.InferenceExamples | agent_service/graph/nodes/query_fix.py:21-39 | ["Cyber", "health apps"] gives Cybersecurity (the earlier entry wins over "health"), and empty or missing keywords give `None` |
| QueryFix.ApplyDefaults | agent_service/graph/nodes/query_fix.py:97-99 | the keys after filling are the old keys plus the defaulted ones; a key with a default takes it when its value is missing or `None`, and every other value is kept |
| QueryFix.FillDefaults | agent_service/graph/nodes/query_fix.py:97-99 | the loop over the defaults table computes that filling |
| QueryFix.DefaultForTable | agent_service/graph/nodes/query_fix.py:15-20 | the table gives 0.0 to the three thresholds, "medium" to `risk_profile`, and nothing to any other key |
| QueryFix.FixedValues | agent_service/graph/nodes/query_fix.py:90-99 | for each key of the completed query: it is present exactly when it was present before or has a default; a `None` sector becomes the inferred one; a `None` or missing defaulted field takes its default; everything else is unchanged |
| QueryFix.FixedIsReady | agent_service/graph/nodes/query_fix.py:90-102 | the completed query can be filtered on, and keeps its keywords and theme |
| QueryFix.BuildWhere | agent_service/graph/nodes/query_fix.py:42-82 | the clause-collecting code computes the `where` filter |
| QueryFix.CombinedKeepsClauses | agent_service/graph/nodes/query_fix.py:74-82 | no clauses give `None`, one clause is returned bare, and several are wrapped in an `And` of at least two; the operands are the clauses, unchanged and in order |
| QueryFix.WhereClauseOrder | agent_service/graph/nodes/query_fix.py:47-72 | the clauses come in the fixed path order sector, ebitda, market cap, growth, risk, and no path appears twice |
| QueryFix.ClauseOnOptional | agent_service/graph/nodes/query_fix.py:49-72 | an optional clause is found on its own path exactly when it was added |
| QueryFix.ClauseOnConcat | agent_service/graph/nodes/query_fix.py:47-72 | looking a path up in two appended clause lists finds the first list's clause first |
| QueryFix.WhereClauseConditions | agent_service/graph/nodes/query_fix.py:49-72 | for each path, there is a clause exactly when its condition holds: a truthy sector or risk profile, or a threshold above 0. `revenue_min` lands on `market_cap_musd` and `arr_growth_min` on `rev_growth_pct`. Any other path has no clause |
| QueryFix.WhereIgnoresOtherKeys | agent_service/graph/nodes/query_fix.py:42-82 | the filter depends only on sector, the three thresholds and the risk profile |
| QueryFix.WherePresentAfterFix | agent_service/graph/nodes/query_fix.py:97-102 | after defaulting, the filter always exists unless the risk profile was explicitly set to "" |
| QueryFix.ConceptsShape | agent_service/graph/nodes/query_fix.py:104-112 | the concept list is never empty; it falls back to "high-potential company" exactly when keywords, theme and sector are all falsy; it contains every keyword and the theme, and ends with the sector when one is set |
| QueryFix.ConceptsIgnoreCountry | agent_service/graph/nodes/query_fix.py:104-112 | country plays no part in the concepts |
| QueryFix.FixedStable | agent_service/graph/nodes/query_fix.py:90-99 | completing a completed query keeps each key's presence and value |
| QueryFix.FixedKeysStable | agent_service/graph/nodes/query_fix.py:90-99 | completing twice gives the same key set as completing once |
| QueryFix.FixedValuesStable | agent_service/graph/nodes/query_fix.py:90-99 | completing twice gives the same values as completing once |
| QueryFix.FixedTwice | agent_service/graph/nodes/query_fix.py:90-99 | completion is idempotent |
| QueryFix.QueryFixIdempotent | agent_service/graph/nodes/query_fix.py:85-117 | running the node on its own output gives the same query, filter and concepts |
| QueryFix.DumpIsFixable | agent_service/graph/nodes/query_fix.py:90-110 | every clarifier dump can be completed without raising, and has no risk profile |
| QueryFix.Complete | agent_service/graph/nodes/query_fix.py:90-99 | the copy-infer-default steps compute the completed query |
| QueryFix.AssembleConcepts | agent_service/graph/nodes/query_fix.py:104-112 | the extend/append steps compute the concept list |
| QueryFix.QueryFix | agent_service/graph/nodes/query_fix.py:85-117 | the node stores the completed query, its filter and its concepts in the state, and changes nothing else |
| Retriever.KeywordStringChoice | agent_service/graph/nodes/retriever.py:45-48 | a non-empty `keyword_query` is used, stripped; otherwise the keywords are space-joined and stripped, or "" without keywords; the result never starts or ends with whitespace |
| Retriever.SearchFor | agent_service/graph/nodes/retriever.py:57-74 | a hybrid request exactly when the keyword string is non-empty (alpha 0.7, summary field, relative-score fusion), otherwise a near-vector request; vector, limit and filter are passed through |
| Retriever.Marshal | agent_service/graph/nodes/retriever.py:79-87 | the loop computes the kept documents |
| Retriever.KeptConcat | agent_service/graph/nodes/retriever.py:79-87 | marshalling two responses back to back gives their documents in order |
| Retriever.PassingIndicesExact | agent_service/graph/nodes/retriever.py:84-85 | the passing positions increase strictly, each hit at one passes the gate, and no passing hit is missed |
| Retriever.KeptSelectsPassing | agent_service/graph/nodes/retriever.py:79-87 | the j-th kept document is the j-th passing hit's properties tagged with its score under `_relevance`; there is one document per passing hit |
| Retriever.KeptBounds | agent_service/graph/nodes/retriever.py:79-93 | at most one document per hit, and none exactly when no hit passes |
| Retriever.KeptAreRelevant | agent_service/graph/nodes/retriever.py:84-87 | every kept document carries a numeric `_relevance` above 0.01 |
| Retriever.GateBoundary | agent_service/graph/nodes/retriever.py:84-85 | the gate is strict: 0.01 is dropped, 0.011 is kept, and a hit without score or metadata is dropped |
| Retriever.Retrieve | agent_service/graph/nodes/retriever.py:36-95 | the node stores the kept hits of the chosen search, and sets the error message exactly when none are kept |
| Clarifier.ClarificationTestsNone | agent_service/graph/nodes/clarifier.py:51-53 | the flag tests `is None`: an empty sector string or an empty keyword list does not ask for clarification |
| Clarifier.DumpNeverNeedsClarification | agent_service/graph/nodes/clarifier.py:48-54 | a validated dump has a keyword list, so it never asks for clarification; its budget is the record's |
| Clarifier.Clarify | agent_service/graph/nodes/clarifier.py:26-56 | the node succeeds exactly when the extraction validates; it then stores the dump, the flag and the budget, and otherwise changes nothing |
| StateGraphs.GraphBuilder.constructor | agent_service/graph/build_graph.py:28 | a new builder has no nodes, no entry point and no edges |
| StateGraphs.GraphBuilder.AddNode | agent_service/graph/build_graph.py:30-32 | a name is added only when it is not yet bound; names stay unique and the name is bound afterwards |
| StateGraphs.GraphBuilder.SetEntryPoint | agent_service/graph/build_graph.py:34 | records the entry point |
| StateGraphs.GraphBuilder.AddEdge | agent_service/graph/build_graph.py:39-40 | appends a direct edge |
| StateGraphs.GraphBuilder.AddConditionalEdges | agent_service/graph/build_graph.py:35-38 | appends a routed edge |
| StateGraphs.GraphBuilder.AddGuardedEdge | agent_service/graph/build_partial_graph.py:17-23 | appends an edge that fires only for one value of the flag |
| StateGraphs.GraphBuilder.Compile | agent_service/graph/build_graph.py:42 | compiling succeeds exactly when the entry point is a registered node |
| StateGraphs.BindingAppend | agent_service/graph/build_graph.py:30-32 | adding an unbound name binds it and leaves every other binding alone |
| StateGraphs.BindingAbsent | agent_service/graph/build_graph.py:30-32 | a name is unbound exactly when no node carries it |
| StateGraphs.RunNode | agent_service/main.py:19 | a raising node changes nothing. The clarifier succeeds exactly when the extraction validates and then holds its dump, flag and budget. Query fix succeeds exactly when the structured query is readable and then holds the fixed query, its filter and its concepts. The retriever succeeds exactly when the keywords are readable and then holds the kept hits. Only the clarifier writes the flag, only query fix the filter and concepts, only the retriever the documents; the user query never changes |
| StateGraphs.Invoke | agent_service/main.py:19 | the nodes run form a walk from the entry point along the routes. A completed run is a finished walk. A raising node is the one the route led to. The limit is hit only after 25 nodes with the route still open. A set flag implies no clarifier has run. The documents change only if a retriever ran. Once a query fix ran the concept list is non-empty, and right after a clarifier then a query fix the state holds the fixed dump of the extraction with its filter and concepts |
| BuildGraph.BuildEngine | agent_service/graph/build_graph.py:26-42 | the builder calls produce the Parser/Enricher/Retriever graph |
| BuildGraph.EngineRouting | agent_service/graph/build_graph.py:30-40 | Parser is the entry; after it the run ends when the flag is set and goes to Enricher otherwise; Enricher goes to Retriever and Retriever to the end |
| BuildGraph.EngineWalks | agent_service/graph/build_graph.py:34-40 | every walk is a prefix of Parser, Enricher, Retriever, and reaches Enricher only after a clear flag |
| BuildGraph.EngineRuns | agent_service/graph/build_graph.py:34-40 | a finished run is Parser alone exactly when the flag is set, and otherwise all three nodes; Retriever runs exactly when the flag is clear |
| BuildGraph.InvokeEngine | agent_service/graph/build_graph.py:26-45 | a completed run visits all three nodes in order and has a non-empty concept list; a raising run stops at the next node in that order; the limit is never hit; and the documents change only when Retriever ran |
| BuildPartialGraph.BuildPartialEngine | agent_service/graph/build_partial_graph.py:9-25 | the builder calls produce the clarifier/query_fix graph with two guarded edges |
| BuildPartialGraph.PartialRouting | agent_service/graph/build_partial_graph.py:13-23 | exactly one of the two guarded edges fires for each flag value; "END" names no node; query_fix has no outgoing edge; no node retrieves |
| BuildPartialGraph.PartialWalks | agent_service/graph/build_partial_graph.py:16-23 | every walk is a prefix of clarifier, query_fix, and reaches query_fix only after a clear flag |
| BuildPartialGraph.PartialRuns | agent_service/graph/build_partial_graph.py:16-23 | a finished run is the clarifier alone exactly when the flag is set, and clarifier then query_fix otherwise |
| BuildPartialGraph.InvokePartialEngine | agent_service/graph/build_partial_graph.py:9-28 | a completed run is clarifier then query_fix, leaves the flag clear and holds the fixed dump of the extraction, its filter and a non-empty concept list; the limit is never hit; the retrieved documents and the user query never change |
| BuildPartialGraph.HandleQuery | agent_service/main.py:17-19 | a request's state holds its query and its retrieved documents stay empty. A completed run needs no clarification; the query's extraction validated, and the state holds what query fix makes of its dump: the completed query, the filter and a non-empty concept list |
| IngestBackup.SanitizeKey | ingest_backup.py:49-50 | same length; each dot becomes an underscore and every other character is kept |
| IngestBackup.SanitizeKeyIdempotent | ingest_backup.py:49-50 | a sanitised key has no dot, and sanitising again changes nothing |
| IngestBackup.BuildDoc | ingest_backup.py:53-67 | the document has exactly the nine fields, a dot-free ticker, and no vector yet |
| IngestBackup.BuildDocDefaults | ingest_backup.py:56-65 | sector, country and summary are copied when the provider has them, whatever their value, and otherwise default to "Unknown", "Unknown" and ""; an empty info gives a falsy description |
| IngestBackup.CleanTicker | ingest_backup.py:78 | succeeds exactly when the ticker has a colon (otherwise `[1]` raises); the result has no colon |
| IngestBackup.CleanTickerSegment | ingest_backup.py:78 | the cleaned ticker is the text right after the first colon, up to the next colon or the end |
| IngestBackup.CleanTickerDropsExchange | ingest_backup.py:78 | an `EXCHANGE:SYMBOL` ticker whose parts hold no colon cleans to `SYMBOL` |
| IngestBackup.EmbedDocs | ingest_backup.py:85-96 | the loop computes the kept documents and their vectors |
| IngestBackup.DescribedIndicesExact | ingest_backup.py:87-90 | the described positions increase strictly, each has a truthy description, and none is missed |
| IngestBackup.EmbeddedSelectsDescribed | ingest_backup.py:85-96 | the j-th kept document is the j-th described one with its embedding stored under `_vector`, and otherwise unchanged |
| IngestBackup.VectorsOfDescribed | ingest_backup.py:85-96 | the j-th vector is the embedding of the j-th described document's text |
| IngestBackup.WithoutVector | ingest_backup.py:112 | the property bag has every key but `_vector`, with its value unchanged |
| IngestBackup.Payloads | ingest_backup.py:110-117 | at most one object per document; no property bag holds `_vector`, and no vector is `None` |
| IngestBackup.VectorIndicesExact | ingest_backup.py:109-116 | the documents the comprehension keeps are exactly those with a `_vector` that is not `None`, in increasing order: none is skipped and none is added |
| IngestBackup.PayloadsSelectVectors | ingest_backup.py:109-116 | for any document list, there is one object per document with a vector, in order; the j-th object holds that document's other fields and its own `_vector` |
| IngestBackup.PayloadsConcat | ingest_backup.py:110-117 | the payloads of two appended document lists are the two payload lists appended |
| IngestBackup.PayloadsOfEmbedded | ingest_backup.py:85-117 | after the embedding loop, every kept document yields exactly one object, in order, holding its other fields and its embedding |
| IngestBackup.PayloadOfEmbedding | ingest_backup.py:110-117 | one embedded document yields one object holding its other fields and its embedding |
| IngestBackup.PrepareUpload | ingest_backup.py:107-123 | fails with "No valid documents to upload." exactly when there are no documents; otherwise its value is the payload list of those documents (characterized by PayloadsSelectVectors) |

## Left out

- I/O and services. The OpenAI client, the Weaviate client, the sentence embedder, yfinance,
  pandas CSV reading, JSON files and logging become oracle parameters or are left out.
  Langfuse callbacks and the FastAPI app are also left out. `main.py`'s mapping of a raised
  exception to an HTTP 500 is left out: the driver reports `Raised(node)` instead.
- The extraction model's answer and JSON decoding. The oracle returns either the tool-call
  arguments as a dictionary or `None`, which stands for a missing tool call or invalid JSON.
- pydantic's coercions are not modelled. Validation accepts numbers as numbers and strings
  as strings only; numeric strings and other lax conversions are treated as rejected.
  pydantic's refusal to assign undeclared attributes on `InvestorState` is not modelled:
  `where_filter`, `near_text`, `near_vector`, `keyword_query` and `error` are fields of the
  class. No node sets `keyword_query` or `near_vector`, so they stay inputs.
- The sector vocabulary (`SECTOR_SUBSECTOR_MAP`) lives in `agent_service/sector_taxonomy.py`,
  which is not part of this model. It is a parameter, `sectors`.
- `lower()` is modelled for ASCII letters only. `strip()` removes the characters Python's
  `str.isspace()` accepts, the Unicode whitespace included.
- Retriever.Retrieve: the in-place write `props["_relevance"] = …` on the backend's own
  property dictionaries (aliasing) is modelled as building a new dictionary.
  `RETRIEVAL_LIMIT` (an environment value, 10 by default) is a parameter.
- StateGraphs.RunNode: a node that raises is modelled as raising before it changes anything.
  `query_fix` raises when its input lacks a key it indexes or holds a value of the wrong
  type. `retriever` raises when there is no `keyword_query` and the structured query is
  missing or its keywords are not a list. The model approximates "does not raise" by these
  type checks.
- StateGraphs.GraphBuilder.Compile: it checks only that the entry point is registered.
  LangGraph's own validation of edge endpoints is not modelled, nor is the fact that the
  real `add_edge` takes no `condition` argument.
- IngestBackup.BuildDoc: the division by 1e6 and `round(…, 1)` / `round(…, 2)` are not
  modelled, because floating point is left out. The three figures are inputs.
- IngestBackup.EmbedDocs: the in-place write `d['_vector'] = vector` into the list being
  iterated is modelled as building a new document. The model works on values, so no
  aliasing is captured. The progress messages are left out.
- IngestBackup: the `docs = [d for d in docs if d]` filter is not modelled: `BuildDoc`
  always returns a non-empty document, so the filter keeps every document.
- The choice between rebuilding documents and loading `my_docs.json` is not modelled; the
  payload and upload steps take any document list, and PayloadsSelectVectors states which
  documents of such a list yield objects.
- Upload failures inside `insert_many` (which are only logged) are not modelled.
