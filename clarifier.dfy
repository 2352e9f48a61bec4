/**
 * The clarifier node: asks the language model (an oracle here) to fill the
 * StructuredQuery schema from the user's text, validates the answer, stores
 * its dump in the state and derives the clarification flag and the budget.
 */
module Clarifier {
  import opened Wrappers
  import opened Values
  import opened State
  import opened StructuredQueries

  /** The chat model the extraction is asked of. */
  const MODEL: string := "gpt-4o"

  /** The single tool the model is forced to call. */
  const TOOL_NAME: string := "extract_query"

  /** What the node sends: the model, a zero temperature, the forced tool and the user's text. */
  datatype ExtractionRequest = ExtractionRequest(model: string, temperature: int, tool: string, userQuery: string)

  function RequestFor(userQuery: string): ExtractionRequest
  {
    ExtractionRequest(MODEL, 0, TOOL_NAME, userQuery)
  }

  /**
   * The query the node obtains: the tool-call arguments the oracle returns
   * (`None` when there is no tool call or its arguments are not a JSON
   * object), validated against the schema.
   */
  function Extracted(userQuery: string, extract: ExtractionRequest -> Option<Dict>, sectors: set<string>): Option<StructuredQuery>
  {
    var arguments := extract(RequestFor(userQuery));
    if arguments.None? then None else Validate(arguments.value, sectors)
  }

  /** `structured["sector"] is None and structured["keywords"] is None`. */
  predicate NeedsClarification(structured: Dict)
    requires "sector" in structured && "keywords" in structured
  {
    structured["sector"].Null? && structured["keywords"].Null?
  }

  /** `structured.get("budget")`, as the state's optional number. */
  function BudgetOf(structured: Dict): Option<real>
    requires Get(structured, "budget").Null? || Get(structured, "budget").Num?
  {
    var b := Get(structured, "budget");
    if b.Num? then Some(b.number) else None
  }

  /**
   * The test is `is None`, not emptiness: a present sector, or any keyword
   * list at all (the empty one included), means no clarification is needed.
   */
  lemma ClarificationTestsNone(structured: Dict)
    requires "sector" in structured && "keywords" in structured
    ensures structured["sector"].Str? ==> !NeedsClarification(structured)
    ensures structured["keywords"].StrList? ==> !NeedsClarification(structured)
    ensures structured["sector"] == Str("") && structured["keywords"] == Null ==> !NeedsClarification(structured)
    ensures structured["sector"] == Null && structured["keywords"] == Null ==> NeedsClarification(structured)
  {
  }

  /**
   * A dumped StructuredQuery always carries a keyword list, so a validated
   * extraction never asks for clarification; its budget is the record's.
   */
  lemma DumpNeverNeedsClarification(q: StructuredQuery)
    ensures "sector" in ModelDump(q) && "keywords" in ModelDump(q)
    ensures !NeedsClarification(ModelDump(q))
    ensures BudgetOf(ModelDump(q)) == q.budget
  {
  }

  /**
   * `clarifier`: on a valid extraction the state holds its dump, the flag and
   * the budget derived from it; otherwise the node raises (`ok` is false) and
   * the state is left as it was.
   */
  method Clarify(state: InvestorState, extract: ExtractionRequest -> Option<Dict>, sectors: set<string>)
    returns (ok: bool)
    modifies state`structuredQuery, state`needClarification, state`budget
    ensures ok <==> Extracted(old(state.userQuery), extract, sectors).Some?
    ensures ok ==> var q := Extracted(old(state.userQuery), extract, sectors).value;
      && state.structuredQuery == Some(ModelDump(q))
      && state.needClarification == NeedsClarification(ModelDump(q))
      && state.budget == q.budget
    ensures ok ==> !state.needClarification
    ensures !ok ==>
      state.structuredQuery == old(state.structuredQuery) && state.needClarification == old(state.needClarification)
      && state.budget == old(state.budget)
  {
    var arguments := extract(RequestFor(state.userQuery));
    if arguments.None? {
      return false;
    }
    var validated := Validate(arguments.value, sectors);
    if validated.None? {
      return false;
    }
    var structured := ModelDump(validated.value);
    DumpNeverNeedsClarification(validated.value);
    state.structuredQuery := Some(structured);
    state.needClarification := structured["sector"].Null? && structured["keywords"].Null?;
    state.budget := BudgetOf(structured);
    return true;
  }
}
