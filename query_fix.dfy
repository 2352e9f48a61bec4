/**
 * The query-fix node: infers a missing sector from the keywords, fills the
 * default thresholds, and derives the backend's `where` filter and the
 * `near_text` concept list from the completed query.
 */
module QueryFix {
  import opened Wrappers
  import opened Values
  import opened Text
  import opened Filters
  import opened State
  import StructuredQueries

  /** Keyword fragment to sector, matched in this order. */
  const INFER_SECTOR_KEYWORDS: seq<(string, string)> := [
    ("cyber", "Cybersecurity"),
    ("climate", "Clean Energy"),
    ("net-zero", "Clean Energy"),
    ("edtech", "EdTech"),
    ("health", "HealthTech"),
    ("saas", "Enterprise SaaS")
  ]

  /** Values written into keys that are missing or `None`, in this order. */
  const DEFAULTS: seq<(string, Value)> := [
    ("ebitda_min", Num(0.0)),
    ("revenue_min", Num(0.0)),
    ("arr_growth_min", Num(0.0)),
    ("risk_profile", Str("medium"))
  ]

  /** The concept searched for when the query yields none. */
  const FALLBACK_CONCEPT := "high-potential company"

  /**
   * The dictionaries the node handles without raising: the keys it indexes
   * directly are present, and every value has the shape its use needs.
   */
  predicate Fixable(q: Dict)
  {
    && "sector" in q && (q["sector"].Null? || q["sector"].Str?)
    && "keywords" in q && (q["keywords"].Null? || q["keywords"].StrList?)
    && "theme" in q && (q["theme"].Null? || q["theme"].Str?)
    && (Get(q, "ebitda_min").Null? || Get(q, "ebitda_min").Num?)
    && (Get(q, "revenue_min").Null? || Get(q, "revenue_min").Num?)
    && (Get(q, "arr_growth_min").Null? || Get(q, "arr_growth_min").Num?)
    && (Get(q, "risk_profile").Null? || Get(q, "risk_profile").Str?)
  }

  // ---------------------------------------------------------------------------
  // Sector inference

  /** The sector of the first entry of `table` whose fragment occurs in `blob`. */
  function FirstMatch(table: seq<(string, string)>, blob: string): Option<string>
  {
    if table == [] then None
    else if Contains(blob, table[0].0) then Some(table[0].1)
    else FirstMatch(table[1..], blob)
  }

  /** Entry `i` matches and no earlier entry does. */
  ghost predicate FirstHit(table: seq<(string, string)>, blob: string, i: int)
  {
    0 <= i < |table| && Contains(blob, table[i].0)
      && forall j :: 0 <= j < i ==> !Contains(blob, table[j].0)
  }

  /** `FirstMatch` returns the sector of the first matching entry, and nothing exactly when none matches. */
  lemma {:induction false} FirstMatchIsFirst(table: seq<(string, string)>, blob: string)
    ensures FirstMatch(table, blob).None? <==> forall i :: 0 <= i < |table| ==> !Contains(blob, table[i].0)
    ensures FirstMatch(table, blob).Some? ==>
      exists i :: FirstHit(table, blob, i) && FirstMatch(table, blob).value == table[i].1
  {
    if table != [] && !Contains(blob, table[0].0) {
      FirstMatchIsFirst(table[1..], blob);
      if FirstMatch(table[1..], blob).Some? {
        var i :| FirstHit(table[1..], blob, i) && FirstMatch(table[1..], blob).value == table[1..][i].1;
        assert FirstHit(table, blob, i + 1);
      } else {
        forall i | 0 <= i < |table| ensures !Contains(blob, table[i].0) {
          if i > 0 { assert table[i] == table[1..][i - 1]; }
        }
      }
    } else if table != [] {
      assert FirstHit(table, blob, 0);
    }
  }

  /**
   * The sector `_infer_sector_from_keywords` returns: nothing for a missing or
   * empty keyword list, otherwise the first table entry found in the
   * lower-cased, space-joined keywords.
   */
  function InferredSector(keywords: Value): Option<string>
    requires keywords.Null? || keywords.StrList?
  {
    if !Truthy(keywords) then None
    else FirstMatch(INFER_SECTOR_KEYWORDS, Lower(Join(" ", keywords.items)))
  }

  /** `_infer_sector_from_keywords`: the table scan with its early return. */
  method InferSectorFromKeywords(keywords: Value) returns (sector: Option<string>)
    requires keywords.Null? || keywords.StrList?
    ensures sector == InferredSector(keywords)
  {
    if !Truthy(keywords) {
      return None;
    }
    var blob := Lower(Join(" ", keywords.items));
    var i := 0;
    while i < |INFER_SECTOR_KEYWORDS|
      invariant 0 <= i <= |INFER_SECTOR_KEYWORDS|
      invariant FirstMatch(INFER_SECTOR_KEYWORDS[i..], blob) == InferredSector(keywords)
    {
      var (fragment, candidate) := INFER_SECTOR_KEYWORDS[i];
      if Contains(blob, fragment) {
        return Some(candidate);
      }
      assert INFER_SECTOR_KEYWORDS[i..][1..] == INFER_SECTOR_KEYWORDS[i + 1..];
      i := i + 1;
    }
    return None;
  }

  /** Declaration order decides: "cyber" is matched before "health". */
  lemma InferenceExamples()
    ensures InferredSector(StrList(["Cyber", "health apps"])) == Some("Cybersecurity")
    ensures InferredSector(StrList([])) == None && InferredSector(Null) == None
  {
    var blob := Lower(Join(" ", ["Cyber", "health apps"]));
    assert blob == "cyber health apps";
    assert blob[..5] == "cyber";
  }

  // ---------------------------------------------------------------------------
  // Defaults

  function SectorValue(o: Option<string>): Value
  {
    match o
    case None => Null
    case Some(s) => Str(s)
  }

  /** The query with its sector inferred when it is `None`. */
  function WithSector(q: Dict): Dict
    requires Fixable(q)
  {
    if q["sector"].Null? then q["sector" := SectorValue(InferredSector(q["keywords"]))] else q
  }

  /** The default for key `k`: the value of its first entry in `ds`. */
  function DefaultFor(ds: seq<(string, Value)>, k: string): Option<Value>
  {
    if ds == [] then None
    else if ds[0].0 == k then Some(ds[0].1)
    else DefaultFor(ds[1..], k)
  }

  predicate NonNullDefaults(ds: seq<(string, Value)>)
  {
    forall i :: 0 <= i < |ds| ==> !ds[i].1.Null?
  }

  /** One step of the defaults loop: `if q.get(k) is None: q[k] = v`. */
  function FillDefault(q: Dict, k: string, v: Value): Dict
  {
    if Get(q, k).Null? then q[k := v] else q
  }

  /**
   * The defaults loop as a whole: a key with a default is present afterwards,
   * and holds its default exactly when it was missing or `None`; every other
   * value, `0.0` included, is left as it was.
   */
  function ApplyDefaults(q: Dict, ds: seq<(string, Value)>): (r: Dict)
    requires NonNullDefaults(ds)
    ensures forall k :: k in r <==> k in q || DefaultFor(ds, k).Some?
    ensures forall k :: (Get(r, k) ==
      if Get(q, k).Null? && DefaultFor(ds, k).Some? then DefaultFor(ds, k).value else Get(q, k))
    decreases |ds|
  {
    if ds == [] then q
    else
      assert NonNullDefaults(ds[1..]) by {
        forall i | 0 <= i < |ds[1..]| ensures !ds[1..][i].1.Null? { assert ds[1..][i] == ds[i + 1]; }
      }
      ApplyDefaults(FillDefault(q, ds[0].0, ds[0].1), ds[1..])
  }

  /** The `for fld, default in DEFAULTS.items()` loop. */
  method FillDefaults(q: Dict) returns (r: Dict)
    ensures r == ApplyDefaults(q, DEFAULTS)
  {
    r := q;
    var i := 0;
    while i < |DEFAULTS|
      invariant 0 <= i <= |DEFAULTS|
      invariant ApplyDefaults(r, DEFAULTS[i..]) == ApplyDefaults(q, DEFAULTS)
    {
      var (field, default) := DEFAULTS[i];
      if Get(r, field).Null? {
        r := r[field := default];
      }
      assert DEFAULTS[i..][1..] == DEFAULTS[i + 1..];
      i := i + 1;
    }
  }

  /** The default of each key, read off the table. */
  lemma DefaultForTable(k: string)
    ensures DefaultFor(DEFAULTS, k) ==
      if k == "ebitda_min" || k == "revenue_min" || k == "arr_growth_min" then Some(Num(0.0))
      else if k == "risk_profile" then Some(Str("medium"))
      else None
  {
    var d0 := DEFAULTS;
    var d1 := [("revenue_min", Num(0.0)), ("arr_growth_min", Num(0.0)), ("risk_profile", Str("medium"))];
    var d2 := [("arr_growth_min", Num(0.0)), ("risk_profile", Str("medium"))];
    var d3 := [("risk_profile", Str("medium"))];
    assert d0[1..] == d1 && d1[1..] == d2 && d2[1..] == d3 && d3[1..] == [];
    if k != "ebitda_min" {
      assert DefaultFor(d0, k) == DefaultFor(d1, k);
      if k != "revenue_min" {
        assert DefaultFor(d1, k) == DefaultFor(d2, k);
        if k != "arr_growth_min" {
          assert DefaultFor(d2, k) == DefaultFor(d3, k);
          assert DefaultFor(d3[1..], k) == None;
        }
      }
    }
  }

  /** The query `query_fix` persists: sector inferred, then defaults filled. */
  function Fixed(q: Dict): Dict
    requires Fixable(q)
  {
    ApplyDefaults(WithSector(q), DEFAULTS)
  }

  /**
   * What `query_fix` does to the value under each key: an existing sector is
   * kept and a `None` one is inferred; a key with a default gets it exactly
   * when missing or `None` (an explicit `0.0` is kept); nothing else changes,
   * and the only keys added are those of the defaults.
   */
  lemma FixedValues(q: Dict, k: string)
    requires Fixable(q)
    ensures k in Fixed(q) <==> k in q || k in {"ebitda_min", "revenue_min", "arr_growth_min", "risk_profile"}
    ensures Get(Fixed(q), k) ==
      if k == "sector" then (if q["sector"].Null? then SectorValue(InferredSector(q["keywords"])) else q["sector"])
      else if Get(q, k).Null? && DefaultFor(DEFAULTS, k).Some? then DefaultFor(DEFAULTS, k).value
      else Get(q, k)
  {
    DefaultForTable(k);
    assert k != "sector" ==> Get(WithSector(q), k) == Get(q, k);
  }

  /** The completed query is again one the node handles, ready for the filter builder. */
  lemma FixedIsReady(q: Dict)
    requires Fixable(q)
    ensures Fixable(Fixed(q)) && WhereReady(Fixed(q))
    ensures Fixed(q)["keywords"] == q["keywords"] && Fixed(q)["theme"] == q["theme"]
  {
    FixedValues(q, "sector");
    FixedValues(q, "keywords");
    FixedValues(q, "theme");
    FixedValues(q, "ebitda_min");
    FixedValues(q, "revenue_min");
    FixedValues(q, "arr_growth_min");
    FixedValues(q, "risk_profile");
    DefaultForTable("ebitda_min");
    DefaultForTable("revenue_min");
    DefaultForTable("arr_growth_min");
    DefaultForTable("risk_profile");
  }

  // ---------------------------------------------------------------------------
  // The `where` filter

  /** The shape `_build_where` indexes without raising. */
  predicate WhereReady(q: Dict)
  {
    && "sector" in q && (q["sector"].Null? || q["sector"].Str?)
    && "ebitda_min" in q && q["ebitda_min"].Num?
    && "revenue_min" in q && q["revenue_min"].Num?
    && "arr_growth_min" in q && q["arr_growth_min"].Num?
    && "risk_profile" in q && q["risk_profile"].Str?
  }

  function Optional(present: bool, c: Clause): seq<Clause>
  {
    if present then [c] else []
  }

  /**
   * The clauses `_build_where` appends, in its order. The revenue threshold is
   * compared against the market-capitalisation property, as the code does.
   */
  function WhereClauses(q: Dict): seq<Clause>
    requires WhereReady(q)
  {
    Optional(Truthy(q["sector"]), Clause(["sector"], Equal, q["sector"]))
    + Optional(q["ebitda_min"].number > 0.0, Clause(["ebitda_musd"], GreaterThan, q["ebitda_min"]))
    + Optional(q["revenue_min"].number > 0.0, Clause(["market_cap_musd"], GreaterThan, q["revenue_min"]))
    + Optional(q["arr_growth_min"].number > 0.0, Clause(["rev_growth_pct"], GreaterThan, q["arr_growth_min"]))
    + Optional(Truthy(q["risk_profile"]), Clause(["risk_profile"], Equal, q["risk_profile"]))
  }

  /** No clause is no filter; one clause stands alone; more are joined by `And`. */
  function Combined(clauses: seq<Clause>): Option<Filter>
  {
    if clauses == [] then None
    else if |clauses| == 1 then Some(Single(clauses[0]))
    else Some(And(clauses))
  }

  function Where(q: Dict): Option<Filter>
    requires WhereReady(q)
  {
    Combined(WhereClauses(q))
  }

  /** `_build_where`: successive appends to a local clause list, then the combination. */
  method BuildWhere(q: Dict) returns (filter: Option<Filter>)
    requires WhereReady(q)
    ensures filter == Where(q)
  {
    var clauses: seq<Clause> := [];
    if Truthy(q["sector"]) {
      clauses := clauses + [Clause(["sector"], Equal, q["sector"])];
    }
    assert clauses == Optional(Truthy(q["sector"]), Clause(["sector"], Equal, q["sector"]));
    ghost var before := clauses;
    if q["ebitda_min"].number > 0.0 {
      clauses := clauses + [Clause(["ebitda_musd"], GreaterThan, q["ebitda_min"])];
    }
    assert clauses == before + Optional(q["ebitda_min"].number > 0.0, Clause(["ebitda_musd"], GreaterThan, q["ebitda_min"]));
    before := clauses;
    if q["revenue_min"].number > 0.0 {
      clauses := clauses + [Clause(["market_cap_musd"], GreaterThan, q["revenue_min"])];
    }
    assert clauses == before + Optional(q["revenue_min"].number > 0.0, Clause(["market_cap_musd"], GreaterThan, q["revenue_min"]));
    before := clauses;
    if q["arr_growth_min"].number > 0.0 {
      clauses := clauses + [Clause(["rev_growth_pct"], GreaterThan, q["arr_growth_min"])];
    }
    assert clauses == before + Optional(q["arr_growth_min"].number > 0.0, Clause(["rev_growth_pct"], GreaterThan, q["arr_growth_min"]));
    before := clauses;
    if Truthy(q["risk_profile"]) {
      clauses := clauses + [Clause(["risk_profile"], Equal, q["risk_profile"])];
    }
    assert clauses == before + Optional(Truthy(q["risk_profile"]), Clause(["risk_profile"], Equal, q["risk_profile"]));
    assert clauses == WhereClauses(q);
    if clauses == [] {
      filter := None;
    } else if |clauses| == 1 {
      filter := Some(Single(clauses[0]));
    } else {
      filter := Some(And(clauses));
    }
  }

  /** The clauses a filter stands for. */
  function Operands(f: Option<Filter>): seq<Clause>
  {
    match f
    case None => []
    case Some(Single(c)) => [c]
    case Some(And(cs)) => cs
  }

  /**
   * Combining loses no clause and reorders none, gives no filter only for no
   * clauses, and never wraps fewer than two clauses in `And`.
   */
  lemma CombinedKeepsClauses(clauses: seq<Clause>)
    ensures Operands(Combined(clauses)) == clauses
    ensures Combined(clauses).None? <==> clauses == []
    ensures Combined(clauses).Some? && Combined(clauses).value.And? ==> |Combined(clauses).value.operands| >= 2
  {
  }

  /** The position of a property in the builder's fixed clause order. */
  function PathRank(path: seq<string>): int
  {
    if path == ["sector"] then 0
    else if path == ["ebitda_musd"] then 1
    else if path == ["market_cap_musd"] then 2
    else if path == ["rev_growth_pct"] then 3
    else if path == ["risk_profile"] then 4
    else -1
  }

  /** The clauses come in the fixed order sector, EBITDA, market cap, revenue growth, risk. */
  lemma WhereClauseOrder(q: Dict)
    requires WhereReady(q)
    ensures Ranked(WhereClauses(q), 4)
  {
    PathRanks();
    var sector := Clause(["sector"], Equal, q["sector"]);
    var ebitda := Clause(["ebitda_musd"], GreaterThan, q["ebitda_min"]);
    var revenue := Clause(["market_cap_musd"], GreaterThan, q["revenue_min"]);
    var growth := Clause(["rev_growth_pct"], GreaterThan, q["arr_growth_min"]);
    var risk := Clause(["risk_profile"], Equal, q["risk_profile"]);
    var c0 := [] + Optional(Truthy(q["sector"]), sector);
    var c1 := c0 + Optional(q["ebitda_min"].number > 0.0, ebitda);
    var c2 := c1 + Optional(q["revenue_min"].number > 0.0, revenue);
    var c3 := c2 + Optional(q["arr_growth_min"].number > 0.0, growth);
    var c4 := c3 + Optional(Truthy(q["risk_profile"]), risk);
    assert c4 == WhereClauses(q);
    AppendRanked([], -1, Truthy(q["sector"]), sector);
    AppendRanked(c0, 0, q["ebitda_min"].number > 0.0, ebitda);
    AppendRanked(c1, 1, q["revenue_min"].number > 0.0, revenue);
    AppendRanked(c2, 2, q["arr_growth_min"].number > 0.0, growth);
    AppendRanked(c3, 3, Truthy(q["risk_profile"]), risk);
  }

  /** The ranks of `cs` are valid, strictly increasing and at most `top`. */
  predicate Ranked(cs: seq<Clause>, top: int)
  {
    && (forall i, j :: 0 <= i < j < |cs| ==> PathRank(cs[i].path) < PathRank(cs[j].path))
    && (forall i :: 0 <= i < |cs| ==> 0 <= PathRank(cs[i].path) <= top)
  }

  /** Appending an optional clause ranked above every clause so far keeps the ranks increasing. */
  lemma AppendRanked(cs: seq<Clause>, top: int, present: bool, c: Clause)
    requires Ranked(cs, top) && top < PathRank(c.path) && 0 <= PathRank(c.path)
    ensures Ranked(cs + Optional(present, c), PathRank(c.path))
  {
    var r := cs + Optional(present, c);
    assert forall i :: 0 <= i < |cs| ==> r[i] == cs[i];
    assert present ==> r[|cs|] == c && |r| == |cs| + 1;
  }

  /** The first clause on `path`, if any. */
  function ClauseOn(clauses: seq<Clause>, path: seq<string>): Option<Clause>
  {
    if clauses == [] then None
    else if clauses[0].path == path then Some(clauses[0])
    else ClauseOn(clauses[1..], path)
  }

  lemma ClauseOnOptional(present: bool, c: Clause, path: seq<string>)
    ensures ClauseOn(Optional(present, c), path) == if present && c.path == path then Some(c) else None
  {
    if present {
      assert Optional(present, c)[1..] == [];
    }
  }

  /** The first clause on a path in a concatenation is found in the first part if it is there. */
  lemma {:induction false} ClauseOnConcat(a: seq<Clause>, b: seq<Clause>, path: seq<string>)
    ensures ClauseOn(a + b, path) == if ClauseOn(a, path).Some? then ClauseOn(a, path) else ClauseOn(b, path)
  {
    if a != [] {
      assert (a + b)[1..] == a[1..] + b;
      ClauseOnConcat(a[1..], b, path);
    } else {
      assert a + b == b;
    }
  }

  function IfPresent(present: bool, c: Clause): Option<Clause>
  {
    if present then Some(c) else None
  }

  /**
   * Each clause is present exactly under its condition (a truthy sector or
   * risk profile, a threshold strictly above 0) and carries the query's value.
   * The revenue threshold yields the clause on market capitalisation; no
   * other property (the country, say) gets a clause.
   */
  lemma WhereClauseConditions(q: Dict, path: seq<string>)
    requires WhereReady(q)
    ensures var on := ClauseOn(WhereClauses(q), path);
      && (path == ["sector"] ==> on == IfPresent(Truthy(q["sector"]), Clause(["sector"], Equal, q["sector"])))
      && (path == ["ebitda_musd"] ==>
            on == IfPresent(q["ebitda_min"].number > 0.0, Clause(["ebitda_musd"], GreaterThan, q["ebitda_min"])))
      && (path == ["market_cap_musd"] ==>
            on == IfPresent(q["revenue_min"].number > 0.0, Clause(["market_cap_musd"], GreaterThan, q["revenue_min"])))
      && (path == ["rev_growth_pct"] ==>
            on == IfPresent(q["arr_growth_min"].number > 0.0, Clause(["rev_growth_pct"], GreaterThan, q["arr_growth_min"])))
      && (path == ["risk_profile"] ==> on == IfPresent(Truthy(q["risk_profile"]), Clause(["risk_profile"], Equal, q["risk_profile"])))
      && (PathRank(path) < 0 ==> on == None)
  {
    var c0 := Optional(Truthy(q["sector"]), Clause(["sector"], Equal, q["sector"]));
    var c1 := Optional(q["ebitda_min"].number > 0.0, Clause(["ebitda_musd"], GreaterThan, q["ebitda_min"]));
    var c2 := Optional(q["revenue_min"].number > 0.0, Clause(["market_cap_musd"], GreaterThan, q["revenue_min"]));
    var c3 := Optional(q["arr_growth_min"].number > 0.0, Clause(["rev_growth_pct"], GreaterThan, q["arr_growth_min"]));
    var c4 := Optional(Truthy(q["risk_profile"]), Clause(["risk_profile"], Equal, q["risk_profile"]));
    assert WhereClauses(q) == c0 + c1 + c2 + c3 + c4;
    ClauseOnConcat(c0 + c1 + c2 + c3, c4, path);
    ClauseOnConcat(c0 + c1 + c2, c3, path);
    ClauseOnConcat(c0 + c1, c2, path);
    ClauseOnConcat(c0, c1, path);
    ClauseOnOptional(Truthy(q["sector"]), Clause(["sector"], Equal, q["sector"]), path);
    ClauseOnOptional(q["ebitda_min"].number > 0.0, Clause(["ebitda_musd"], GreaterThan, q["ebitda_min"]), path);
    ClauseOnOptional(q["revenue_min"].number > 0.0, Clause(["market_cap_musd"], GreaterThan, q["revenue_min"]), path);
    ClauseOnOptional(q["arr_growth_min"].number > 0.0, Clause(["rev_growth_pct"], GreaterThan, q["arr_growth_min"]), path);
    ClauseOnOptional(Truthy(q["risk_profile"]), Clause(["risk_profile"], Equal, q["risk_profile"]), path);
    PathRanks();
  }

  /** The five properties are told apart by their rank. */
  lemma PathRanks()
    ensures PathRank(["sector"]) == 0 && PathRank(["ebitda_musd"]) == 1 && PathRank(["market_cap_musd"]) == 2
    ensures PathRank(["rev_growth_pct"]) == 3 && PathRank(["risk_profile"]) == 4
  {
    assert ["sector"][0] != ["ebitda_musd"][0];
  }

  /** The filter reads only the sector, the three default thresholds and the risk profile. */
  lemma WhereIgnoresOtherKeys(q: Dict, k: string, v: Value)
    requires WhereReady(q)
    requires k !in {"sector", "ebitda_min", "revenue_min", "arr_growth_min", "risk_profile"}
    ensures WhereReady(q[k := v]) && Where(q[k := v]) == Where(q)
  {
  }

  /**
   * After the node, the filter is never `None`: the risk profile defaults to
   * "medium", whose clause is always emitted (unless the query carried an
   * explicit empty risk profile).
   */
  lemma WherePresentAfterFix(q: Dict)
    requires Fixable(q)
    requires Get(q, "risk_profile") != Str("")
    ensures WhereReady(Fixed(q)) && Where(Fixed(q)).Some?
  {
    FixedIsReady(q);
    FixedValues(q, "risk_profile");
    DefaultForTable("risk_profile");
    assert Truthy(Fixed(q)["risk_profile"]);
    assert |WhereClauses(Fixed(q))| >= 1;
  }

  // ---------------------------------------------------------------------------
  // The `near_text` concepts

  /** The shape the concept assembly indexes without raising. */
  predicate ConceptsReady(q: Dict)
  {
    && "keywords" in q && (q["keywords"].Null? || q["keywords"].StrList?)
    && "theme" in q && (q["theme"].Null? || q["theme"].Str?)
    && "sector" in q && (q["sector"].Null? || q["sector"].Str?)
  }

  /** Keywords, then the theme, then the sector, each only when truthy. */
  function RawConcepts(q: Dict): seq<string>
    requires ConceptsReady(q)
  {
    (if Truthy(q["keywords"]) then q["keywords"].items else [])
    + (if Truthy(q["theme"]) then [q["theme"].text] else [])
    + (if Truthy(q["sector"]) then [q["sector"].text] else [])
  }

  /** `concepts or ["high-potential company"]`. */
  function Concepts(q: Dict): seq<string>
    requires ConceptsReady(q)
  {
    var raw := RawConcepts(q);
    if raw == [] then [FALLBACK_CONCEPT] else raw
  }

  /**
   * The concept list is never empty; it is the fallback alone exactly when
   * keywords, theme and sector are all falsy; otherwise the keywords come
   * first, in order, and a truthy sector comes last.
   */
  lemma ConceptsShape(q: Dict)
    requires ConceptsReady(q)
    ensures Concepts(q) != []
    ensures RawConcepts(q) == [] <==> !Truthy(q["keywords"]) && !Truthy(q["theme"]) && !Truthy(q["sector"])
    ensures RawConcepts(q) == [] ==> Concepts(q) == [FALLBACK_CONCEPT]
    ensures Truthy(q["keywords"]) ==> q["keywords"].items <= Concepts(q)
    ensures Truthy(q["sector"]) ==> Concepts(q)[|Concepts(q)| - 1] == q["sector"].text
    ensures Truthy(q["theme"]) ==> q["theme"].text in Concepts(q)
  {
    var raw := RawConcepts(q);
    if Truthy(q["keywords"]) {
      assert raw[..|q["keywords"].items|] == q["keywords"].items;
    }
  }

  /** The country never enters the concepts. */
  lemma ConceptsIgnoreCountry(q: Dict, v: Value)
    requires ConceptsReady(q)
    ensures ConceptsReady(q["country" := v]) && Concepts(q["country" := v]) == Concepts(q)
  {
  }

  // ---------------------------------------------------------------------------
  // The node

  /** What the node persists: the completed query, its filter and its concepts. */
  function FixOutput(q: Dict): (Dict, Option<Filter>, seq<string>)
    requires Fixable(q)
  {
    FixedIsReady(q);
    var f := Fixed(q);
    (f, Where(f), Concepts(f))
  }

  /** A key's value and presence survive a second completion. */
  lemma FixedStable(q: Dict, k: string)
    requires Fixable(q)
    ensures Fixable(Fixed(q))
    ensures k in Fixed(Fixed(q)) <==> k in Fixed(q)
    ensures k in Fixed(q) ==> Fixed(Fixed(q))[k] == Fixed(q)[k]
  {
    FixedIsReady(q);
    FixedValues(q, k);
    FixedValues(Fixed(q), k);
    DefaultForTable(k);
  }

  /** Completion adds no key to a completed query. */
  lemma FixedKeysStable(q: Dict)
    requires Fixable(q)
    ensures Fixable(Fixed(q)) && forall k :: (k in Fixed(Fixed(q)) <==> k in Fixed(q))
  {
    FixedIsReady(q);
    forall k ensures (k in Fixed(Fixed(q)) <==> k in Fixed(q)) {
      FixedStable(q, k);
    }
  }

  /** Completion changes no value of a completed query. */
  lemma FixedValuesStable(q: Dict)
    requires Fixable(q)
    ensures Fixable(Fixed(q)) && forall k :: k in Fixed(q) ==> k in Fixed(Fixed(q)) && Fixed(Fixed(q))[k] == Fixed(q)[k]
  {
    FixedIsReady(q);
    forall k | k in Fixed(q) ensures k in Fixed(Fixed(q)) && Fixed(Fixed(q))[k] == Fixed(q)[k] {
      FixedStable(q, k);
    }
  }

  /** Completing an already completed query gives it back unchanged. */
  lemma FixedTwice(q: Dict)
    requires Fixable(q)
    ensures Fixable(Fixed(q)) && Fixed(Fixed(q)) == Fixed(q)
  {
    FixedKeysStable(q);
    FixedValuesStable(q);
  }

  /** Running the node on its own output changes nothing: it only fills `None` fields. */
  lemma QueryFixIdempotent(q: Dict)
    requires Fixable(q)
    ensures Fixable(Fixed(q)) && FixOutput(Fixed(q)) == FixOutput(q)
  {
    FixedTwice(q);
  }

  /** A freshly dumped StructuredQuery is handled, and carries no risk profile of its own. */
  lemma DumpIsFixable(sq: StructuredQueries.StructuredQuery)
    ensures Fixable(StructuredQueries.ModelDump(sq))
    ensures Get(StructuredQueries.ModelDump(sq), "risk_profile") == Null
  {
  }

  /** The first half of `query_fix`: the sector inference, then the defaults loop, on a copy. */
  method Complete(q0: Dict) returns (q: Dict)
    requires Fixable(q0)
    ensures q == Fixed(q0)
  {
    q := q0;
    if q["sector"].Null? {
      var sector := InferSectorFromKeywords(Get(q, "keywords"));
      q := q["sector" := SectorValue(sector)];
    }
    assert q == WithSector(q0);
    q := FillDefaults(q);
  }

  /** The concept list `query_fix` assembles from the completed query. */
  method AssembleConcepts(q: Dict) returns (concepts: seq<string>)
    requires ConceptsReady(q)
    ensures concepts == Concepts(q)
  {
    concepts := [];
    if Truthy(q["keywords"]) {
      concepts := concepts + q["keywords"].items;
    }
    if Truthy(q["theme"]) {
      concepts := concepts + [q["theme"].text];
    }
    if Truthy(q["sector"]) {
      concepts := concepts + [q["sector"].text];
    }
    assert concepts == RawConcepts(q);
    if concepts == [] {
      concepts := [FALLBACK_CONCEPT];
    }
  }

  /**
   * `query_fix`: completes the structured query, then sets the `where`
   * filter and the `near_text` concepts from the completed query.
   */
  method QueryFix(state: InvestorState)
    requires state.structuredQuery.Some? && Fixable(state.structuredQuery.value)
    modifies state`structuredQuery, state`whereFilter, state`nearText
    ensures state.structuredQuery.Some? && state.nearText.Some?
    ensures FixOutput(old(state.structuredQuery.value))
      == (state.structuredQuery.value, state.whereFilter, state.nearText.value.concepts)
  {
    FixedIsReady(state.structuredQuery.value);
    var q := Complete(state.structuredQuery.value);
    var filter := BuildWhere(q);
    state.whereFilter := filter;
    var concepts := AssembleConcepts(q);
    state.nearText := Some(NearText(concepts));
    state.structuredQuery := Some(q);
  }
}
