/** The mutable record threaded through the pipeline's nodes. */
module State {
  import opened Wrappers
  import opened Values
  import opened Filters

  /** `{"concepts": [...]}`. */
  datatype NearText = NearText(concepts: seq<string>)

  class InvestorState {
    var userQuery: string
    var structuredQuery: Option<Dict>
    var needClarification: bool
    var retrievedDocs: seq<Dict>
    var scoredCandidates: seq<Dict>
    var budget: Option<real>
    var portfolio: Option<Dict>
    var explanationMd: Option<string>

    // Attributes the nodes read or write without the record declaring them.
    var whereFilter: Option<Filter>
    var nearText: Option<NearText>
    var nearVector: Option<seq<real>>
    var keywordQuery: Option<string>
    var error: Option<string>

    /** `InvestorState(user_query=...)`: the query is the one required field. */
    constructor (userQuery: string)
      ensures this.userQuery == userQuery
      ensures structuredQuery == None && !needClarification
      ensures retrievedDocs == [] && scoredCandidates == []
      ensures budget == None && portfolio == None && explanationMd == None
      ensures whereFilter == None && nearText == None && nearVector == None
      ensures keywordQuery == None && error == None
    {
      this.userQuery := userQuery;
      structuredQuery := None;
      needClarification := false;
      retrievedDocs := [];
      scoredCandidates := [];
      budget := None;
      portfolio := None;
      explanationMd := None;
      whereFilter := None;
      nearText := None;
      nearVector := None;
      keywordQuery := None;
      error := None;
    }
  }
}
