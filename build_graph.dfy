/**
 * The full engine: Parser (the clarifier), then Enricher (query fix), then
 * Retriever, with an exit to the end after Parser when clarification is
 * needed.
 */
module BuildGraph {
  import opened Wrappers
  import opened State
  import opened StateGraphs

  /** The nodes in the order a complete run visits them. */
  const ENGINE_ORDER: seq<string> := ["Parser", "Enricher", "Retriever"]

  /** The graph `build_engine` compiles. */
  function EngineGraph(): Graph
  {
    Graph(
      [("Parser", Clarify), ("Enricher", Fix), ("Retriever", Retrieve)],
      "Parser",
      [Routed("Parser", Node("Enricher"), End), Direct("Enricher", Node("Retriever")), Direct("Retriever", End)])
  }

  /** `build_engine`: the builder calls in source order, then `compile()`. */
  method BuildEngine() returns (g: Graph)
    ensures g == EngineGraph()
  {
    var graph := new GraphBuilder();
    EngineRouting(false);
    var added := graph.AddNode("Parser", Clarify);
    added := graph.AddNode("Enricher", Fix);
    assert graph.nodes == [("Parser", Clarify), ("Enricher", Fix)];
    assert Binding(graph.nodes[1..], "Retriever") == None;
    added := graph.AddNode("Retriever", Retrieve);
    assert graph.nodes == EngineGraph().nodes;
    graph.SetEntryPoint("Parser");
    graph.AddConditionalEdges("Parser", Node("Enricher"), End);
    graph.AddEdge("Enricher", Node("Retriever"));
    graph.AddEdge("Retriever", End);
    var compiled := graph.Compile();
    g := compiled.value;
  }

  /**
   * The routing: Parser is the entry and runs the clarifier; after it the
   * route ends when clarification is needed and goes to Enricher otherwise;
   * Enricher always goes to Retriever, and Retriever always to the end.
   */
  lemma EngineRouting(needClarification: bool)
    ensures var g := EngineGraph();
      && g.entry == "Parser" && UniqueNames(g.nodes)
      && Binding(g.nodes, "Parser") == Some(Clarify)
      && Binding(g.nodes, "Enricher") == Some(Fix)
      && Binding(g.nodes, "Retriever") == Some(Retrieve)
      && Next(g.edges, "Parser", needClarification) == (if needClarification then End else Node("Enricher"))
      && Next(g.edges, "Enricher", needClarification) == Node("Retriever")
      && Next(g.edges, "Retriever", needClarification) == End
  {
    assert "Parser"[0] != "Enricher"[0] && "Parser"[0] != "Retriever"[0] && "Enricher"[0] != "Retriever"[0];
    var g := EngineGraph();
    assert g.edges[1..][1..] == [Direct("Retriever", End)];
    assert Next(g.edges, "Retriever", needClarification) == Next(g.edges[1..], "Retriever", needClarification);
    assert Next(g.edges[1..], "Retriever", needClarification) == Next(g.edges[1..][1..], "Retriever", needClarification);
  }

  /** Every walk follows Parser, Enricher, Retriever: no node runs twice, and Enricher only after a clear flag. */
  lemma EngineWalks(trace: seq<string>, flags: seq<bool>)
    requires Walk(EngineGraph(), trace, flags)
    ensures |trace| <= 3 && trace == ENGINE_ORDER[..|trace|]
    ensures |trace| >= 2 ==> !flags[0]
  {
    var g := EngineGraph();
    if |trace| >= 1 {
      EngineRouting(flags[0]);
      if |trace| >= 2 {
        assert Next(g.edges, trace[0], flags[0]) == Node(trace[1]);
        if |trace| >= 3 {
          EngineRouting(flags[1]);
          assert Next(g.edges, trace[1], flags[1]) == Node(trace[2]);
          assert trace[..3] == ENGINE_ORDER;
          if |trace| >= 4 {
            EngineRouting(flags[2]);
            WalkStep(g, trace, flags, 2);
            assert false;
          }
        }
      }
    }
  }

  /**
   * A finished run is Parser alone when the flag is set after it, and
   * Parser, Enricher, Retriever when it is clear: Retriever runs exactly when
   * no clarification is needed.
   */
  lemma EngineRuns(trace: seq<string>, flags: seq<bool>)
    requires Finished(EngineGraph(), trace, flags)
    ensures trace == ["Parser"] || trace == ENGINE_ORDER
    ensures trace == ["Parser"] <==> flags[0]
    ensures "Retriever" in trace <==> !flags[0]
  {
    EngineWalks(trace, flags);
    EngineRouting(flags[0]);
    if |trace| == 2 {
      EngineRouting(flags[1]);
    } else if |trace| == 3 {
      EngineRouting(flags[2]);
    }
  }

  /**
   * `engine.invoke(state)` on this engine. A validated extraction never asks
   * for clarification, so a completed run always reaches Retriever; a run
   * that raises stops on the node after the ones it completed; the
   * recursion limit is never reached; and the retrieved documents change
   * only when Retriever ran.
   */
  method InvokeEngine(state: InvestorState, services: Services) returns (trace: seq<string>, outcome: Outcome)
    modifies state
    ensures !outcome.RecursionLimit?
    ensures outcome.Completed? ==> trace == ENGINE_ORDER
    ensures outcome.Raised? ==> |trace| < 3 && trace == ENGINE_ORDER[..|trace|] && outcome.node == ENGINE_ORDER[|trace|]
    ensures "Retriever" !in trace ==> state.retrievedDocs == old(state.retrievedDocs)
    ensures outcome.Completed? ==> HasConcepts(state)
  {
    var g := BuildEngine();
    EngineRouting(false);
    ghost var flags;
    trace, outcome, flags := Invoke(g, state, services);
    EngineWalks(trace, flags);
    if trace != [] {
      assert Binding(g.nodes, trace[0]) == Some(Clarify);
      assert !flags[0];
    }
    if outcome.Completed? {
      EngineRuns(trace, flags);
    }
    if outcome.Raised? && trace != [] {
      EngineRouting(Last(flags));
    }
    if "Retriever" !in trace {
      assert Avoids(g, trace, Retrieve);
    }
  }
}
