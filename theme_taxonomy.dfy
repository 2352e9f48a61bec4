/** The closed theme vocabulary and the parent group of each theme. */
module ThemeTaxonomy {

  /** The canonical themes, in declaration order. */
  const THEMES: seq<string> := [
    "Precision Oncology & Genomic Diagnostics",
    "Medical Imaging & Devices",
    "Virtual Care & Digital Health",
    "Life Sciences Cloud & Data Platforms",
    "CRO & Clinical Services",
    "Enterprise AI Platforms",
    "Agentic AI Platforms",
    "RPA & Process Automation",
    "Digital Workflow & ITSM",
    "CRM / Customer 360 Platforms",
    "Data Cloud / Warehouse & Sharing",
    "Observability, Monitoring & Logging",
    "Search / Vector DB / Search AI",
    "Endpoint & Workload Protection / XDR",
    "Cloud & Network Security / SASE",
    "Security Analytics / SIEM / SOAR",
    "Solar Inverters & Home Energy Systems",
    "Energy Storage Solutions",
    "Energy Management Software",
    "Solar/Battery EBOS Components",
    "EV Charging Infrastructure",
    "ESG & Sustainability Analytics",
    "BNPL & Alternative Consumer Finance",
    "EdTech & Language Learning",
    "Intelligence / Defense Software",
    "GovTech Suites (State/Local)"
  ]

  const HEALTHCARE := "Healthcare & Life Sciences"
  const ENTERPRISE_AI := "Enterprise AI, Automation & Data"
  const CYBERSECURITY := "Cybersecurity"
  const CLEAN_TECH := "Energy, Sustainability & Clean Tech"
  const FINTECH := "Fintech & Payments"
  const EDUCATION := "Education & Upskilling"
  const GOVERNMENT := "Government & Defense Tech"

  /** The seven parent groups. */
  const PARENT_GROUPS: set<string> :=
    {HEALTHCARE, ENTERPRISE_AI, CYBERSECURITY, CLEAN_TECH, FINTECH, EDUCATION, GOVERNMENT}

  /** Each theme mapped to its parent group. */
  const PARENT_THEME: map<string, string> := map[
    "Precision Oncology & Genomic Diagnostics" := HEALTHCARE,
    "Medical Imaging & Devices" := HEALTHCARE,
    "Virtual Care & Digital Health" := HEALTHCARE,
    "Life Sciences Cloud & Data Platforms" := HEALTHCARE,
    "CRO & Clinical Services" := HEALTHCARE,

    "Enterprise AI Platforms" := ENTERPRISE_AI,
    "Agentic AI Platforms" := ENTERPRISE_AI,
    "RPA & Process Automation" := ENTERPRISE_AI,
    "Digital Workflow & ITSM" := ENTERPRISE_AI,
    "CRM / Customer 360 Platforms" := ENTERPRISE_AI,
    "Data Cloud / Warehouse & Sharing" := ENTERPRISE_AI,
    "Observability, Monitoring & Logging" := ENTERPRISE_AI,
    "Search / Vector DB / Search AI" := ENTERPRISE_AI,

    "Endpoint & Workload Protection / XDR" := CYBERSECURITY,
    "Cloud & Network Security / SASE" := CYBERSECURITY,
    "Security Analytics / SIEM / SOAR" := CYBERSECURITY,

    "Solar Inverters & Home Energy Systems" := CLEAN_TECH,
    "Energy Storage Solutions" := CLEAN_TECH,
    "Energy Management Software" := CLEAN_TECH,
    "Solar/Battery EBOS Components" := CLEAN_TECH,
    "EV Charging Infrastructure" := CLEAN_TECH,
    "ESG & Sustainability Analytics" := CLEAN_TECH,

    "BNPL & Alternative Consumer Finance" := FINTECH,
    "EdTech & Language Learning" := EDUCATION,
    "Intelligence / Defense Software" := GOVERNMENT,
    "GovTech Suites (State/Local)" := GOVERNMENT
  ]

  /** No theme is listed twice, so the list has 26 distinct entries. */
  lemma ThemesDistinct()
    ensures |THEMES| == 26
    ensures forall i, j :: 0 <= i < j < |THEMES| ==> THEMES[i] != THEMES[j]
  {
  }

  /** The parent map is defined on exactly the listed themes. */
  lemma ParentMapTotal()
    ensures PARENT_THEME.Keys == set t | t in THEMES
  {
  }

  /** Every parent is one of the seven groups, and every group has a theme. */
  lemma ParentsAreGroups()
    ensures forall t :: t in PARENT_THEME ==> PARENT_THEME[t] in PARENT_GROUPS
    ensures PARENT_THEME.Values == PARENT_GROUPS
  {
    // one witness theme per group
    assert PARENT_THEME["CRO & Clinical Services"] == HEALTHCARE;
    assert PARENT_THEME["Agentic AI Platforms"] == ENTERPRISE_AI;
    assert PARENT_THEME["Cloud & Network Security / SASE"] == CYBERSECURITY;
    assert PARENT_THEME["Energy Storage Solutions"] == CLEAN_TECH;
    assert PARENT_THEME["BNPL & Alternative Consumer Finance"] == FINTECH;
    assert PARENT_THEME["EdTech & Language Learning"] == EDUCATION;
    assert PARENT_THEME["Intelligence / Defense Software"] == GOVERNMENT;
  }

  /** The three security themes are Cybersecurity; ESG analytics is clean tech. */
  lemma SecurityAndEsgParents()
    ensures PARENT_THEME["Endpoint & Workload Protection / XDR"] == CYBERSECURITY
    ensures PARENT_THEME["Cloud & Network Security / SASE"] == CYBERSECURITY
    ensures PARENT_THEME["Security Analytics / SIEM / SOAR"] == CYBERSECURITY
    ensures PARENT_THEME["ESG & Sustainability Analytics"] == CLEAN_TECH
    ensures forall t :: t in PARENT_THEME && PARENT_THEME[t] == CYBERSECURITY ==>
      t in {"Endpoint & Workload Protection / XDR", "Cloud & Network Security / SASE", "Security Analytics / SIEM / SOAR"}
  {
  }
}
