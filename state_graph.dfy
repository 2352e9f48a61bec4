/**
 * The part of the graph library the two engines use: a builder that
 * registers nodes and edges step by step, the compiled routing table, and a
 * sequential driver that runs nodes on the shared state until the route
 * ends, a node raises, or the recursion limit is hit.
 */
module StateGraphs {
  import opened Wrappers
  import opened Values
  import opened State
  import opened StructuredQueries
  import QueryFix
  import Retriever
  import Clarifier

  /** The library's default recursion limit: the most node runs one invocation allows. */
  const STEP_LIMIT: nat := 25

  /** The node functions of the pipeline. */
  datatype NodeFn = Clarify | Fix | Retrieve

  /** Where an edge leads: a node by name, or the end of the run. */
  datatype Target = Node(name: string) | End

  /**
   * The three edge forms the engines use:
   * - `Direct`: `add_edge(source, target)`, always taken;
   * - `Routed`: `add_conditional_edges(source, router)` whose router picks
   *   `whenClear` when `need_clarification` is false and `whenClarify` otherwise;
   * - `Guarded`: `add_edge(source, target, condition=...)` whose condition is
   *   `need_clarification == onClarify`.
   */
  datatype Edge =
    | Direct(source: string, target: Target)
    | Routed(source: string, whenClear: Target, whenClarify: Target)
    | Guarded(source: string, target: Target, onClarify: bool)

  /** A compiled graph: its nodes in registration order, its entry point and its edges in order. */
  datatype Graph = Graph(nodes: seq<(string, NodeFn)>, entry: string, edges: seq<Edge>)

  /** The function registered under `name`, if any. */
  function Binding(nodes: seq<(string, NodeFn)>, name: string): Option<NodeFn>
  {
    if nodes == [] then None
    else if nodes[0].0 == name then Some(nodes[0].1)
    else Binding(nodes[1..], name)
  }

  predicate Has(g: Graph, name: string)
  {
    Binding(g.nodes, name).Some?
  }

  /** No name is registered twice. */
  predicate UniqueNames(nodes: seq<(string, NodeFn)>)
  {
    forall i, j :: 0 <= i < j < |nodes| ==> nodes[i].0 != nodes[j].0
  }

  /** The target an edge leads to from its source under the flag, or `None` when it does not fire. */
  function Fires(e: Edge, needClarification: bool): Option<Target>
  {
    match e
    case Direct(_, t) => Some(t)
    case Routed(_, clear, clarify) => Some(if needClarification then clarify else clear)
    case Guarded(_, t, onClarify) => if needClarification == onClarify then Some(t) else None
  }

  /** The route out of `source`: the first of its edges that fires; none ends the run. */
  function Next(edges: seq<Edge>, source: string, needClarification: bool): Target
  {
    if edges == [] then End
    else if edges[0].source == source && Fires(edges[0], needClarification).Some? then Fires(edges[0], needClarification).value
    else Next(edges[1..], source, needClarification)
  }

  /** A target that ends the run: `End` itself, or a name no node is registered under. */
  predicate Stops(g: Graph, t: Target)
  {
    t.End? || !Has(g, t.name)
  }

  function Last<T>(s: seq<T>): T
    requires s != []
  {
    s[|s| - 1]
  }

  /**
   * `trace` is a walk of `g` from its entry point along its routes, where
   * `flags[i]` is `need_clarification` as node `trace[i]` left it.
   */
  ghost predicate Walk(g: Graph, trace: seq<string>, flags: seq<bool>)
  {
    && |flags| == |trace|
    && (trace != [] ==> trace[0] == g.entry)
    && (forall i :: 0 <= i < |trace| ==> Has(g, trace[i]))
    && (forall i :: 0 <= i < |trace| - 1 ==> Next(g.edges, trace[i], flags[i]) == Node(trace[i + 1]))
  }

  /** Consecutive nodes of a walk are joined by the route out of the first. */
  lemma WalkStep(g: Graph, trace: seq<string>, flags: seq<bool>, i: int)
    requires Walk(g, trace, flags) && 0 <= i < |trace| - 1
    ensures Next(g.edges, trace[i], flags[i]) == Node(trace[i + 1])
  {
  }

  /** A walk whose last node's route ends the run. */
  ghost predicate Finished(g: Graph, trace: seq<string>, flags: seq<bool>)
  {
    Walk(g, trace, flags) && trace != [] && Stops(g, Next(g.edges, Last(trace), Last(flags)))
  }

  /** The builder the engines mutate before compiling. */
  class GraphBuilder {
    var nodes: seq<(string, NodeFn)>
    var entry: Option<string>
    var edges: seq<Edge>

    /** `StateGraph(InvestorState)`: nothing registered yet. */
    constructor ()
      ensures nodes == [] && entry == None && edges == []
    {
      nodes := [];
      entry := None;
      edges := [];
    }

    /** `add_node(name, fn)`: refused (the library raises) when the name is taken. */
    method AddNode(name: string, fn: NodeFn) returns (ok: bool)
      modifies this`nodes
      ensures ok <==> Binding(old(nodes), name).None?
      ensures nodes == if ok then old(nodes) + [(name, fn)] else old(nodes)
      ensures UniqueNames(old(nodes)) ==> UniqueNames(nodes)
      ensures Binding(nodes, name).Some?
    {
      ok := Binding(nodes, name).None?;
      if ok {
        BindingAppend(nodes, name, fn);
        BindingAbsent(nodes, name);
        nodes := nodes + [(name, fn)];
      }
    }

    /** `set_entry_point(name)`. */
    method SetEntryPoint(name: string)
      modifies this`entry
      ensures entry == Some(name)
    {
      entry := Some(name);
    }

    /** `add_edge(source, target)`. */
    method AddEdge(source: string, target: Target)
      modifies this`edges
      ensures edges == old(edges) + [Direct(source, target)]
    {
      edges := edges + [Direct(source, target)];
    }

    /** `add_conditional_edges(source, router)` with a router on `need_clarification`. */
    method AddConditionalEdges(source: string, whenClear: Target, whenClarify: Target)
      modifies this`edges
      ensures edges == old(edges) + [Routed(source, whenClear, whenClarify)]
    {
      edges := edges + [Routed(source, whenClear, whenClarify)];
    }

    /** `add_edge(source, target, condition=...)` with a condition on `need_clarification`. */
    method AddGuardedEdge(source: string, target: Target, onClarify: bool)
      modifies this`edges
      ensures edges == old(edges) + [Guarded(source, target, onClarify)]
    {
      edges := edges + [Guarded(source, target, onClarify)];
    }

    /** `compile()`: fails without an entry point naming a registered node. */
    method Compile() returns (g: Option<Graph>)
      ensures g.Some? <==> entry.Some? && Binding(nodes, entry.value).Some?
      ensures g.Some? ==> g.value == Graph(nodes, entry.value, edges) && Has(g.value, g.value.entry)
    {
      if entry.Some? && Binding(nodes, entry.value).Some? {
        g := Some(Graph(nodes, entry.value, edges));
      } else {
        g := None;
      }
    }
  }

  /** Registering a fresh name binds it and leaves every other binding alone. */
  lemma {:induction false} BindingAppend(nodes: seq<(string, NodeFn)>, name: string, fn: NodeFn)
    requires Binding(nodes, name).None?
    ensures Binding(nodes + [(name, fn)], name) == Some(fn)
    ensures forall other :: other != name ==> Binding(nodes + [(name, fn)], other) == Binding(nodes, other)
  {
    if nodes != [] {
      assert (nodes + [(name, fn)])[1..] == nodes[1..] + [(name, fn)];
      BindingAppend(nodes[1..], name, fn);
    }
  }

  /** An unbound name is registered under no entry. */
  lemma {:induction false} BindingAbsent(nodes: seq<(string, NodeFn)>, name: string)
    ensures Binding(nodes, name).None? <==> forall i :: 0 <= i < |nodes| ==> nodes[i].0 != name
  {
    if nodes != [] {
      BindingAbsent(nodes[1..], name);
      assert forall i :: 1 <= i < |nodes| ==> nodes[i] == nodes[1..][i - 1];
    }
  }

  // ---------------------------------------------------------------------------
  // Running a compiled graph

  /** The oracles and configuration the nodes need: the extraction model, the sector vocabulary, the search backend and its limit. */
  datatype Services = Services(
    extract: Clarifier.ExtractionRequest -> Option<Dict>,
    sectors: set<string>,
    backend: Retriever.SearchRequest -> seq<Retriever.Hit>,
    limit: int)

  /** How an invocation ends. */
  datatype Outcome = Completed | Raised(node: string) | RecursionLimit

  /** The structured query is the dump of the validated extraction of the user's query. */
  ghost predicate Clarified(state: InvestorState, services: Services)
    reads state
  {
    var e := Clarifier.Extracted(state.userQuery, services.extract, services.sectors);
    e.Some? && state.structuredQuery == Some(ModelDump(e.value))
  }

  /**
   * The structured query, filter and concepts are what query fix makes of the
   * dump of the validated extraction of the user's query.
   */
  ghost predicate FixedClarified(state: InvestorState, services: Services)
    reads state
  {
    var e := Clarifier.Extracted(state.userQuery, services.extract, services.sectors);
    && e.Some? && QueryFix.Fixable(ModelDump(e.value))
    && state.structuredQuery.Some? && state.nearText.Some?
    && QueryFix.FixOutput(ModelDump(e.value)) == (state.structuredQuery.value, state.whereFilter, state.nearText.value.concepts)
  }

  /** The state carries a non-empty concept list for the vector search. */
  predicate HasConcepts(state: InvestorState)
    reads state
  {
    state.nearText.Some? && state.nearText.value.concepts != []
  }

  /**
   * Runs one node on the state; `ok` is false when the node raises: the
   * clarifier when the extraction does not validate, the query-fix and
   * retriever nodes on a state they cannot read. A raising node changes
   * nothing. A node that succeeds leaves what its own method promises: the
   * clarifier the dump, flag and budget of the extraction, query fix the
   * completed query with its filter and concepts, the retriever the kept
   * hits. Only the clarifier writes the flag, only query fix the filter
   * and concepts, only the retriever the retrieved documents.
   */
  method RunNode(fn: NodeFn, state: InvestorState, services: Services) returns (ok: bool)
    modifies state
    ensures !ok ==> unchanged(state)
    ensures fn == Clarify ==> (ok <==> Clarifier.Extracted(old(state.userQuery), services.extract, services.sectors).Some?)
    ensures fn == Clarify && ok ==>
      var q := Clarifier.Extracted(old(state.userQuery), services.extract, services.sectors).value;
      && state.structuredQuery == Some(ModelDump(q))
      && state.needClarification == Clarifier.NeedsClarification(ModelDump(q))
      && state.budget == q.budget
    ensures fn == Fix ==> (ok <==> old(state.structuredQuery).Some? && QueryFix.Fixable(old(state.structuredQuery).value))
    ensures fn == Fix && ok ==>
      && old(state.structuredQuery).Some? && QueryFix.Fixable(old(state.structuredQuery).value)
      && state.structuredQuery.Some? && state.nearText.Some?
      && QueryFix.FixOutput(old(state.structuredQuery).value) == (state.structuredQuery.value, state.whereFilter, state.nearText.value.concepts)
    ensures fn == Retrieve ==> (ok <==> Retriever.KeywordsReadable(old(state.keywordQuery), old(state.structuredQuery)))
    ensures fn == Retrieve && ok ==>
      && Retriever.KeywordsReadable(state.keywordQuery, state.structuredQuery)
      && state.retrievedDocs == Retriever.Kept(services.backend(Retriever.SearchFor(
           Retriever.KeywordString(state.keywordQuery, state.structuredQuery), state.nearVector, state.whereFilter, services.limit)))
    ensures fn != Fix ==> state.whereFilter == old(state.whereFilter) && state.nearText == old(state.nearText)
    ensures state.needClarification ==> old(state.needClarification) && !(fn == Clarify && ok)
    ensures fn != Retrieve || !ok ==> state.retrievedDocs == old(state.retrievedDocs)
    ensures fn != Clarify || !ok ==> state.needClarification == old(state.needClarification)
    ensures state.userQuery == old(state.userQuery)
  {
    match fn
    case Clarify =>
      ok := Clarifier.Clarify(state, services.extract, services.sectors);
    case Fix =>
      ok := state.structuredQuery.Some? && QueryFix.Fixable(state.structuredQuery.value);
      if ok {
        QueryFix.QueryFix(state);
      }
    case Retrieve =>
      ok := Retriever.KeywordsReadable(state.keywordQuery, state.structuredQuery);
      if ok {
        Retriever.Retrieve(state, services.backend, services.limit);
      }
  }

  /** No node of `trace` is bound to `fn`. */
  ghost predicate Avoids(g: Graph, trace: seq<string>, fn: NodeFn)
  {
    forall i :: 0 <= i < |trace| ==> Binding(g.nodes, trace[i]) != Some(fn)
  }

  /** The last node of `trace` is bound to `fn`. */
  ghost predicate LastRan(g: Graph, trace: seq<string>, fn: NodeFn)
  {
    trace != [] && Binding(g.nodes, Last(trace)) == Some(fn)
  }

  /** The trace ends with a clarifier node followed by a query-fix node. */
  ghost predicate EndsClarifyFix(g: Graph, trace: seq<string>)
  {
    |trace| >= 2 && Binding(g.nodes, trace[|trace| - 2]) == Some(Clarify) && LastRan(g, trace, Fix)
  }

  /**
   * What the state holds after the nodes of `trace`: the dump of the
   * extraction right after a clarifier, the fixed dump right after a
   * clarifier then query fix, and concepts once any query fix ran.
   */
  ghost predicate Chained(g: Graph, trace: seq<string>, state: InvestorState, services: Services)
    reads state
  {
    && (LastRan(g, trace, Clarify) ==> Clarified(state, services))
    && (EndsClarifyFix(g, trace) ==> FixedClarified(state, services))
    && (!Avoids(g, trace, Fix) ==> HasConcepts(state))
  }

  /**
   * A node that succeeds extends what `Chained` says: `clarifiedBefore` and
   * `conceptsBefore` are `Clarified` and `HasConcepts` of the state before it.
   */
  lemma ChainedStep(g: Graph, trace: seq<string>, current: string, fn: NodeFn, state: InvestorState, services: Services,
                    clarifiedBefore: bool, conceptsBefore: bool)
    requires LastRan(g, trace, Clarify) ==> clarifiedBefore
    requires !Avoids(g, trace, Fix) ==> conceptsBefore
    requires Binding(g.nodes, current) == Some(fn)
    requires fn != Fix ==> (HasConcepts(state) <==> conceptsBefore)
    requires fn == Clarify ==> Clarified(state, services)
    requires fn == Fix ==> HasConcepts(state) && (clarifiedBefore ==> FixedClarified(state, services))
    ensures Chained(g, trace + [current], state, services)
  {
    var t := trace + [current];
    assert Last(t) == current;
    if EndsClarifyFix(g, t) {
      assert t[|t| - 2] == Last(trace);
    }
    if !Avoids(g, t, Fix) && fn != Fix {
      var i :| 0 <= i < |t| && Binding(g.nodes, t[i]) == Some(Fix);
      assert i < |trace| && t[i] == trace[i];
    }
  }

  /**
   * Every flag of a walk that is set was set on entry (`initial`), and no
   * clarifier ran up to the node that left it.
   */
  ghost predicate FlagsTraced(g: Graph, trace: seq<string>, flags: seq<bool>, initial: bool)
    requires |flags| <= |trace|
  {
    && (forall i :: 0 <= i < |flags| && flags[i] ==> initial)
    && (forall i, j :: 0 <= j <= i < |flags| && flags[i] ==> Binding(g.nodes, trace[j]) != Some(Clarify))
  }

  /**
   * Appending the node the route led to, with the flag it left, extends a
   * walk, keeps a set flag traced back to a set flag on entry with no
   * clarifier before it, and records whether a node of a given kind ran.
   */
  lemma WalkExtend(g: Graph, trace: seq<string>, flags: seq<bool>, current: string, fn: NodeFn, flag: bool, initial: bool)
    requires Walk(g, trace, flags) && Binding(g.nodes, current) == Some(fn)
    requires trace == [] ==> current == g.entry
    requires trace != [] ==> Next(g.edges, Last(trace), Last(flags)) == Node(current)
    requires FlagsTraced(g, trace, flags, initial)
    requires flag ==> initial && fn != Clarify && Avoids(g, trace, Clarify)
    ensures Walk(g, trace + [current], flags + [flag])
    ensures FlagsTraced(g, trace + [current], flags + [flag], initial)
    ensures flag ==> Avoids(g, trace + [current], Clarify)
    ensures forall k :: Avoids(g, trace + [current], k) <==> Avoids(g, trace, k) && fn != k
  {
    var t := trace + [current];
    var f := flags + [flag];
    assert forall i :: 0 <= i < |trace| ==> t[i] == trace[i] && f[i] == flags[i];
    assert t[|trace|] == current && f[|trace|] == flag;
    forall k ensures Avoids(g, t, k) <==> Avoids(g, trace, k) && fn != k {
      if Avoids(g, t, k) {
        assert Binding(g.nodes, t[|trace|]) != Some(k);
      }
    }
  }

  /**
   * One node run as the driver records it: the frame facts of `RunNode`, and
   * `Chained` carried from the trace before the node to the trace with it.
   */
  method Step(fn: NodeFn, state: InvestorState, services: Services, ghost g: Graph, ghost trace: seq<string>, ghost current: string)
    returns (ok: bool)
    requires Binding(g.nodes, current) == Some(fn) && Chained(g, trace, state, services)
    modifies state
    ensures Chained(g, if ok then trace + [current] else trace, state, services)
    ensures state.needClarification ==> old(state.needClarification) && !(fn == Clarify && ok)
    ensures fn != Retrieve || !ok ==> state.retrievedDocs == old(state.retrievedDocs)
    ensures fn != Clarify || !ok ==> state.needClarification == old(state.needClarification)
    ensures state.userQuery == old(state.userQuery)
  {
    ghost var clarifiedBefore, conceptsBefore := Clarified(state, services), HasConcepts(state);
    ok := RunNode(fn, state, services);
    if ok {
      if fn == Fix {
        QueryFix.FixedIsReady(old(state.structuredQuery).value);
        QueryFix.ConceptsShape(QueryFix.Fixed(old(state.structuredQuery).value));
      }
      ChainedStep(g, trace, current, fn, state, services, clarifiedBefore, conceptsBefore);
    }
  }

  /**
   * `engine.invoke(state)`: runs nodes from the entry point along the routes.
   * The nodes run form a walk of the graph; a completed run is a finished
   * walk; a raising node is the one the route led to; the limit is hit only
   * after 25 runs with the route still open. The flag a node leaves is set
   * only if it was set on entry and no clarifier has run yet, and the
   * retrieved documents change only if a retriever node ran.
   */
  method Invoke(g: Graph, state: InvestorState, services: Services)
    returns (trace: seq<string>, outcome: Outcome, ghost flags: seq<bool>)
    requires Has(g, g.entry)
    modifies state
    ensures Walk(g, trace, flags) && |trace| <= STEP_LIMIT
    ensures outcome.Completed? ==> Finished(g, trace, flags)
    ensures outcome.Raised? ==>
      Has(g, outcome.node) && if trace == [] then outcome.node == g.entry else Next(g.edges, Last(trace), Last(flags)) == Node(outcome.node)
    ensures outcome.RecursionLimit? ==> |trace| == STEP_LIMIT && !Stops(g, Next(g.edges, Last(trace), Last(flags)))
    ensures FlagsTraced(g, trace, flags, old(state.needClarification))
    ensures Avoids(g, trace, Retrieve) ==> state.retrievedDocs == old(state.retrievedDocs)
    ensures trace != [] ==> Last(flags) == state.needClarification
    ensures state.userQuery == old(state.userQuery)
    ensures Chained(g, trace, state, services)
  {
    trace := [];
    flags := [];
    var current := g.entry;
    while true
      invariant Walk(g, trace, flags) && |trace| <= STEP_LIMIT && Has(g, current)
      invariant trace == [] ==> current == g.entry
      invariant trace != [] ==> Next(g.edges, Last(trace), Last(flags)) == Node(current)
      invariant state.needClarification ==> old(state.needClarification) && Avoids(g, trace, Clarify)
      invariant FlagsTraced(g, trace, flags, old(state.needClarification))
      invariant Avoids(g, trace, Retrieve) ==> state.retrievedDocs == old(state.retrievedDocs)
      invariant trace != [] ==> Last(flags) == state.needClarification
      invariant state.userQuery == old(state.userQuery)
      invariant Chained(g, trace, state, services)
      decreases STEP_LIMIT - |trace|
    {
      if |trace| == STEP_LIMIT {
        return trace, RecursionLimit, flags;
      }
      var fn := Binding(g.nodes, current).value;
      var ok := Step(fn, state, services, g, trace, current);
      if !ok {
        return trace, Raised(current), flags;
      }
      WalkExtend(g, trace, flags, current, fn, state.needClarification, old(state.needClarification));
      trace := trace + [current];
      flags := flags + [state.needClarification];
      var next := Next(g.edges, current, state.needClarification);
      if next.End? || !Has(g, next.name) {
        return trace, Completed, flags;
      }
      current := next.name;
    }
  }
}
