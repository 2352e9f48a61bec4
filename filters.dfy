/** The search backend's `where` filter tree. */
module Filters {
  import opened Values

  datatype Operator = Equal | GreaterThan

  /**
   * `{"path": path, "operator": op, "valueText" | "valueNumber": value}`;
   * the value's constructor tells which of the two keys carries it.
   */
  datatype Clause = Clause(path: seq<string>, operator: Operator, value: Value)

  /** A bare clause, or `{"operator": "And", "operands": [...]}`. */
  datatype Filter = Single(clause: Clause) | And(operands: seq<Clause>)
}
