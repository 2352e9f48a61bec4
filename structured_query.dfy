/**
 * The StructuredQuery record: the schema the extraction step validates the
 * language model's tool arguments against, its `model_dump` into a dictionary,
 * and its closed theme and sector vocabularies.
 */
module StructuredQueries {
  import opened Wrappers
  import opened Values
  import ThemeTaxonomy

  datatype StructuredQuery = StructuredQuery(
    sector: Option<string>,
    keywords: seq<string>,
    keywordQuery: Option<string>,
    country: Option<string>,
    ebitdaMin: Option<real>,
    revenueMin: Option<real>,
    revGrowthMin: Option<real>,
    marketCapMin: Option<real>,
    budget: Option<real>,
    theme: Option<string>)

  /** The keys of a dumped StructuredQuery. */
  const FIELD_NAMES: set<string> := {
    "sector", "keywords", "keyword_query", "country", "ebitda_min", "revenue_min",
    "rev_growth_min", "market_cap_min", "budget", "theme"}

  /**
   * A query the schema admits: the theme, when present, is one of the
   * canonical themes and the sector, when present, one of `sectors`, the keys
   * of the sector taxonomy (a module that is not part of this model).
   * Thresholds and budget carry no sign or range constraint.
   */
  predicate Valid(q: StructuredQuery, sectors: set<string>)
  {
    && (q.theme.Some? ==> q.theme.value in ThemeTaxonomy.THEMES)
    && (q.sector.Some? ==> q.sector.value in sectors)
  }

  function TextValue(o: Option<string>): Value
  {
    match o
    case None => Null
    case Some(s) => Str(s)
  }

  function NumberValue(o: Option<real>): Value
  {
    match o
    case None => Null
    case Some(x) => Num(x)
  }

  /** `model_dump()`: every declared field under its own key. */
  function ModelDump(q: StructuredQuery): Dict
  {
    map[
      "sector" := TextValue(q.sector),
      "keywords" := StrList(q.keywords),
      "keyword_query" := TextValue(q.keywordQuery),
      "country" := TextValue(q.country),
      "ebitda_min" := NumberValue(q.ebitdaMin),
      "revenue_min" := NumberValue(q.revenueMin),
      "rev_growth_min" := NumberValue(q.revGrowthMin),
      "market_cap_min" := NumberValue(q.marketCapMin),
      "budget" := NumberValue(q.budget),
      "theme" := TextValue(q.theme)]
  }

  /** An `Optional[str]` field, optionally restricted to a literal vocabulary. */
  function ParseText(v: Value, restricted: bool, allowed: set<string>): Option<Option<string>>
  {
    match v
    case Null => Some(None)
    case Str(s) => if !restricted || s in allowed then Some(Some(s)) else None
    case _ => None
  }

  /** An `Optional[float]` field. */
  function ParseNumber(v: Value): Option<Option<real>>
  {
    match v
    case Null => Some(None)
    case Num(x) => Some(Some(x))
    case _ => None
  }

  /**
   * A `List[str]` field defaulting to the empty list; `None` is rejected. An
   * empty list is accepted whichever list encoding carries it.
   */
  function ParseKeywords(v: Value, present: bool): Option<seq<string>>
  {
    if !present then Some([])
    else match v
      case StrList(l) => Some(l)
      case NumList(l) => if l == [] then Some([]) else None
      case _ => None
  }

  /**
   * `StructuredQuery.model_validate`: missing keys take their defaults,
   * unknown keys are ignored, and a value of the wrong shape or outside its
   * vocabulary fails validation (`None`).
   */
  function Validate(d: Dict, sectors: set<string>): Option<StructuredQuery>
  {
    var sector := ParseText(Get(d, "sector"), true, sectors);
    var keywords := ParseKeywords(Get(d, "keywords"), "keywords" in d);
    var keywordQuery := ParseText(Get(d, "keyword_query"), false, {});
    var country := ParseText(Get(d, "country"), false, {});
    var ebitdaMin := ParseNumber(Get(d, "ebitda_min"));
    var revenueMin := ParseNumber(Get(d, "revenue_min"));
    var revGrowthMin := ParseNumber(Get(d, "rev_growth_min"));
    var marketCapMin := ParseNumber(Get(d, "market_cap_min"));
    var budget := ParseNumber(Get(d, "budget"));
    var theme := ParseText(Get(d, "theme"), true, set t | t in ThemeTaxonomy.THEMES);
    if sector.None? || keywords.None? || keywordQuery.None? || country.None? || ebitdaMin.None?
      || revenueMin.None? || revGrowthMin.None? || marketCapMin.None? || budget.None? || theme.None?
    then None
    else Some(StructuredQuery(sector.value, keywords.value, keywordQuery.value, country.value,
      ebitdaMin.value, revenueMin.value, revGrowthMin.value, marketCapMin.value, budget.value, theme.value))
  }

  /** The record built from no arguments at all: every field at its declared default. */
  function Default(): StructuredQuery
  {
    StructuredQuery(None, [], None, None, None, None, None, None, None, None)
  }

  /** Validating an empty argument object gives the defaults: keywords `[]`, everything else `None`. */
  lemma DefaultsFromEmptyArguments(sectors: set<string>)
    ensures Validate(map[], sectors) == Some(Default())
    ensures Default().keywords == [] && Default().sector.None? && Default().theme.None?
    ensures Valid(Default(), sectors)
  {
  }

  /** Whatever validation accepts lies in the vocabularies. */
  lemma ValidatedIsValid(d: Dict, sectors: set<string>)
    ensures Validate(d, sectors).Some? ==> Valid(Validate(d, sectors).value, sectors)
  {
  }

  /** `keywords` is never `None`: an explicit `None` fails validation. */
  lemma NullKeywordsRejected(d: Dict, sectors: set<string>)
    requires "keywords" in d && d["keywords"] == Null
    ensures Validate(d, sectors) == None
  {
  }

  /** Dumping a valid record and validating the dump gives the record back. */
  lemma DumpValidateRoundTrip(q: StructuredQuery, sectors: set<string>)
    requires Valid(q, sectors)
    ensures Validate(ModelDump(q), sectors) == Some(q)
    ensures ModelDump(q).Keys == FIELD_NAMES
  {
    DumpTextParses(q, sectors);
    DumpNumberParses(q);
    ValidateAccepts(ModelDump(q), sectors, q);
    DumpKeys(q);
  }

  /** The dump has exactly the declared fields. */
  lemma DumpKeys(q: StructuredQuery)
    ensures ModelDump(q).Keys == FIELD_NAMES
  {
  }

  /** Each text and list field of a valid record's dump parses back to the record's value. */
  lemma DumpTextParses(q: StructuredQuery, sectors: set<string>)
    requires Valid(q, sectors)
    ensures var d := ModelDump(q);
      && ParseText(Get(d, "sector"), true, sectors) == Some(q.sector)
      && ParseKeywords(Get(d, "keywords"), "keywords" in d) == Some(q.keywords)
      && ParseText(Get(d, "keyword_query"), false, {}) == Some(q.keywordQuery)
      && ParseText(Get(d, "country"), false, {}) == Some(q.country)
      && ParseText(Get(d, "theme"), true, set t | t in ThemeTaxonomy.THEMES) == Some(q.theme)
  {
    TextRoundTrip(q.sector, true, sectors);
    TextRoundTrip(q.keywordQuery, false, {});
    TextRoundTrip(q.country, false, {});
    TextRoundTrip(q.theme, true, set t | t in ThemeTaxonomy.THEMES);
    DumpTextFields(q);
  }

  /** Each numeric field of a dump parses back to the record's value. */
  lemma DumpNumberParses(q: StructuredQuery)
    ensures var d := ModelDump(q);
      && ParseNumber(Get(d, "ebitda_min")) == Some(q.ebitdaMin)
      && ParseNumber(Get(d, "revenue_min")) == Some(q.revenueMin)
      && ParseNumber(Get(d, "rev_growth_min")) == Some(q.revGrowthMin)
      && ParseNumber(Get(d, "market_cap_min")) == Some(q.marketCapMin)
      && ParseNumber(Get(d, "budget")) == Some(q.budget)
  {
    DumpNumberFields(q);
  }

  /** Validation accepts a dictionary whose every field parses, and builds the record of the parsed fields. */
  lemma ValidateAccepts(d: Dict, sectors: set<string>, expected: StructuredQuery)
    requires ParseText(Get(d, "sector"), true, sectors) == Some(expected.sector)
    requires ParseKeywords(Get(d, "keywords"), "keywords" in d) == Some(expected.keywords)
    requires ParseText(Get(d, "keyword_query"), false, {}) == Some(expected.keywordQuery)
    requires ParseText(Get(d, "country"), false, {}) == Some(expected.country)
    requires ParseNumber(Get(d, "ebitda_min")) == Some(expected.ebitdaMin)
    requires ParseNumber(Get(d, "revenue_min")) == Some(expected.revenueMin)
    requires ParseNumber(Get(d, "rev_growth_min")) == Some(expected.revGrowthMin)
    requires ParseNumber(Get(d, "market_cap_min")) == Some(expected.marketCapMin)
    requires ParseNumber(Get(d, "budget")) == Some(expected.budget)
    requires ParseText(Get(d, "theme"), true, set t | t in ThemeTaxonomy.THEMES) == Some(expected.theme)
    ensures Validate(d, sectors) == Some(expected)
  {
  }

  /** The dump holds the text and list fields under their own keys. */
  lemma DumpTextFields(q: StructuredQuery)
    ensures var d := ModelDump(q);
      && "keywords" in d && Get(d, "keywords") == StrList(q.keywords)
      && Get(d, "sector") == TextValue(q.sector) && Get(d, "theme") == TextValue(q.theme)
      && Get(d, "keyword_query") == TextValue(q.keywordQuery) && Get(d, "country") == TextValue(q.country)
  {
  }

  /** The dump holds the numeric fields under their own keys. */
  lemma DumpNumberFields(q: StructuredQuery)
    ensures var d := ModelDump(q);
      && Get(d, "ebitda_min") == NumberValue(q.ebitdaMin) && Get(d, "revenue_min") == NumberValue(q.revenueMin)
      && Get(d, "rev_growth_min") == NumberValue(q.revGrowthMin) && Get(d, "market_cap_min") == NumberValue(q.marketCapMin)
      && Get(d, "budget") == NumberValue(q.budget)
  {
  }

  /** An optional text field parses back to itself when it lies in its vocabulary. */
  lemma TextRoundTrip(o: Option<string>, restricted: bool, allowed: set<string>)
    requires restricted && o.Some? ==> o.value in allowed
    ensures ParseText(TextValue(o), restricted, allowed) == Some(o)
  {
  }
}
