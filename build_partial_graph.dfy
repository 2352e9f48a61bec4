/**
 * The partial engine the service runs: the clarifier, then query fix when
 * no clarification is needed, and a guarded edge to a node named "END"
 * otherwise. It has no retriever.
 */
module BuildPartialGraph {
  import opened Wrappers
  import opened State
  import opened StateGraphs
  import opened StructuredQueries
  import Clarifier
  import QueryFix

  /** The nodes in the order a complete run visits them. */
  const PARTIAL_ORDER: seq<string> := ["clarifier", "query_fix"]

  /** The target named by the string literal "END"; no node is registered under it. */
  const END_NAME: string := "END"

  /** The graph this `build_engine` compiles. */
  function PartialEngineGraph(): Graph
  {
    Graph(
      [("clarifier", Clarify), ("query_fix", Fix)],
      "clarifier",
      [Guarded("clarifier", Node("query_fix"), false), Guarded("clarifier", Node(END_NAME), true)])
  }

  /** `build_engine`: the builder calls in source order, then `compile()`. */
  method BuildPartialEngine() returns (g: Graph)
    ensures g == PartialEngineGraph()
  {
    PartialRouting(false);
    var graph := new GraphBuilder();
    var added := graph.AddNode("clarifier", Clarify);
    added := graph.AddNode("query_fix", Fix);
    assert graph.nodes == PartialEngineGraph().nodes;
    graph.SetEntryPoint("clarifier");
    graph.AddGuardedEdge("clarifier", Node("query_fix"), false);
    graph.AddGuardedEdge("clarifier", Node(END_NAME), true);
    var compiled := graph.Compile();
    g := compiled.value;
  }

  /**
   * The routing: "clarifier" is the entry and runs the clarifier; of its two
   * guarded edges exactly one fires for each value of the flag, leading to
   * "query_fix" when the flag is clear and to "END", where the run stops,
   * when it is set; "query_fix" has no outgoing edge, so the run stops there.
   */
  lemma PartialRouting(needClarification: bool)
    ensures var g := PartialEngineGraph();
      && g.entry == "clarifier" && UniqueNames(g.nodes)
      && Binding(g.nodes, "clarifier") == Some(Clarify)
      && Binding(g.nodes, "query_fix") == Some(Fix)
      && !Has(g, END_NAME)
      && (Fires(g.edges[0], needClarification).Some? <==> !Fires(g.edges[1], needClarification).Some?)
      && Next(g.edges, "clarifier", needClarification) == Node(if needClarification then END_NAME else "query_fix")
      && Next(g.edges, "query_fix", needClarification) == End
      && forall i :: 0 <= i < |g.nodes| ==> g.nodes[i].1 != Retrieve
  {
    assert "clarifier"[0] != "query_fix"[0] && "clarifier"[0] != END_NAME[0] && "query_fix"[0] != END_NAME[0];
    var g := PartialEngineGraph();
    assert Binding(g.nodes[1..], END_NAME) == Binding(g.nodes[1..][1..], END_NAME);
  }

  /** Every walk is a prefix of clarifier, query_fix, and reaches query_fix only after a clear flag. */
  lemma PartialWalks(trace: seq<string>, flags: seq<bool>)
    requires Walk(PartialEngineGraph(), trace, flags)
    ensures |trace| <= 2 && trace == PARTIAL_ORDER[..|trace|]
    ensures |trace| == 2 ==> !flags[0]
  {
    var g := PartialEngineGraph();
    if |trace| >= 1 {
      PartialRouting(flags[0]);
      if |trace| >= 2 {
        WalkStep(g, trace, flags, 0);
        assert trace[..2] == PARTIAL_ORDER;
        if |trace| >= 3 {
          PartialRouting(flags[1]);
          WalkStep(g, trace, flags, 1);
          assert false;
        }
      }
    }
  }

  /**
   * A finished run is the clarifier alone when the flag is set after it, and
   * clarifier then query_fix when it is clear.
   */
  lemma PartialRuns(trace: seq<string>, flags: seq<bool>)
    requires Finished(PartialEngineGraph(), trace, flags)
    ensures trace == ["clarifier"] || trace == PARTIAL_ORDER
    ensures trace == ["clarifier"] <==> flags[0]
  {
    PartialWalks(trace, flags);
    PartialRouting(flags[0]);
    if |trace| == 2 {
      PartialRouting(flags[1]);
    }
  }

  /** A finished run with a clear flag ends with the clarifier followed by query fix. */
  lemma PartialRunEndsInFix(trace: seq<string>, flags: seq<bool>)
    requires Finished(PartialEngineGraph(), trace, flags) && !flags[0]
    ensures EndsClarifyFix(PartialEngineGraph(), trace) && !Avoids(PartialEngineGraph(), trace, Fix)
  {
    PartialRuns(trace, flags);
    PartialRouting(false);
    assert Binding(PartialEngineGraph().nodes, trace[1]) == Some(Fix);
  }

  /**
   * `engine.invoke(state)` on this engine: a completed run is clarifier then
   * query_fix (a validated extraction never asks for clarification), the
   * recursion limit is never reached, and the retrieved documents are never
   * touched since no node retrieves.
   */
  method InvokePartialEngine(state: InvestorState, services: Services) returns (trace: seq<string>, outcome: Outcome)
    modifies state
    ensures !outcome.RecursionLimit?
    ensures outcome.Completed? ==> trace == PARTIAL_ORDER
    ensures outcome.Raised? ==> |trace| < 2 && trace == PARTIAL_ORDER[..|trace|] && outcome.node == PARTIAL_ORDER[|trace|]
    ensures state.retrievedDocs == old(state.retrievedDocs) && state.userQuery == old(state.userQuery)
    ensures outcome.Completed? ==> !state.needClarification
    ensures outcome.Completed? ==> FixedClarified(state, services) && HasConcepts(state)
  {
    var g := BuildPartialEngine();
    PartialRouting(false);
    ghost var flags;
    trace, outcome, flags := Invoke(g, state, services);
    PartialWalks(trace, flags);
    if trace != [] {
      assert Binding(g.nodes, trace[0]) == Some(Clarify);
      assert !flags[0];
    }
    if outcome.Completed? {
      PartialRuns(trace, flags);
      assert Binding(g.nodes, trace[0]) == Some(Clarify);
      assert !Last(flags);
      PartialRunEndsInFix(trace, flags);
    }
    if outcome.Raised? && trace != [] {
      PartialRouting(Last(flags));
    }
    assert Avoids(g, trace, Retrieve);
  }

  /**
   * The service's request handler: a fresh state for the user's query, run
   * through this engine. Its retrieved documents stay at their default, the
   * empty list. A completed run returns the validated extraction of the
   * query, completed by query fix, with its filter and a non-empty concept
   * list.
   */
  method HandleQuery(userQuery: string, services: Services) returns (state: InvestorState, outcome: Outcome)
    ensures state.userQuery == userQuery
    ensures state.retrievedDocs == []
    ensures outcome.Completed? ==> !state.needClarification
    ensures outcome.Completed? ==>
      var q := Clarifier.Extracted(userQuery, services.extract, services.sectors);
      && q.Some? && QueryFix.Fixable(ModelDump(q.value))
      && state.structuredQuery.Some? && state.nearText.Some? && state.nearText.value.concepts != []
      && QueryFix.FixOutput(ModelDump(q.value)) == (state.structuredQuery.value, state.whereFilter, state.nearText.value.concepts)
  {
    state := new InvestorState(userQuery);
    var trace;
    trace, outcome := InvokePartialEngine(state, services);
  }
}
