/** The score rule table and the lookup of a finding's rule. */
module ScoreRules {
  import opened Options
  import opened Findings

  datatype Policy =
    | OncePerWebsite | OncePerAudit | SiteOnce
    | BoundedPerPage | PageBounded
    | PerPage | PageSum

  datatype Rule = Rule(
    ruleId: string, internalKey: string, category: Category, defaultImpact: nat, policy: Policy, maxPenalty: nat)

  const LEAD_RULES: seq<Rule> := [
    Rule("LG-001", "WHATSAPP_MALFORMED", Lead, 18, BoundedPerPage, 36),
    Rule("LG-001", "WHATSAPP_LEADING_ZERO", Lead, 18, BoundedPerPage, 36),
    Rule("LG-001", "WHATSAPP_DUPLICATE_COUNTRY_CODE", Lead, 18, BoundedPerPage, 36),
    Rule("LG-001", "WHATSAPP_MISSING", Lead, 8, OncePerWebsite, 8),
    Rule("LG-003", "TEL_MALFORMED", Lead, 15, BoundedPerPage, 30),
    Rule("LG-003", "TEL_NON_NORMALIZED", Lead, 3, BoundedPerPage, 6),
    Rule("LG-003", "TEL_MISSING", Lead, 3, OncePerWebsite, 3),
    Rule("LG-001", "CONTACT_FORM_MISSING", Lead, 8, OncePerWebsite, 8),
    Rule("LG-001", "CTA_MISSING", Lead, 6, OncePerWebsite, 6)]

  const ADVERTISING_RULES: seq<Rule> := [
    Rule("LG-006", "META_PIXEL_MISSING", Advertising, 4, OncePerWebsite, 4),
    Rule("LG-007", "GA4_MISSING", Advertising, 4, OncePerWebsite, 4),
    Rule("LG-007", "GTM_MISSING", Advertising, 4, OncePerWebsite, 4)]

  const SEO_RULES: seq<Rule> := [
    Rule("LG-010", "NOINDEX_BLOCKING", Seo, 20, BoundedPerPage, 40),
    Rule("LG-011", "CANONICAL_MISSING", Seo, 5, BoundedPerPage, 15),
    Rule("LG-011", "CANONICAL_DUPLICATE", Seo, 8, BoundedPerPage, 24),
    Rule("LG-011", "CANONICAL_CROSS_ORIGIN", Seo, 15, BoundedPerPage, 30),
    Rule("LG-011", "CANONICAL_RELATIVE", Seo, 6, BoundedPerPage, 18),
    Rule("LG-012", "OPENGRAPH_MISSING", Seo, 2, BoundedPerPage, 8)]

  const SECURITY_RULES: seq<Rule> := [
    Rule("LG-013", "TLS_ERROR", Security, 30, OncePerWebsite, 30),
    Rule("LG-013", "MIXED_CONTENT_ACTIVE", Security, 15, BoundedPerPage, 30),
    Rule("LG-013", "MIXED_CONTENT_PASSIVE", Security, 5, BoundedPerPage, 15),
    Rule("LG-014", "SEC_HEADER_CSP", Security, 5, OncePerWebsite, 5),
    Rule("LG-014", "SEC_HEADER_HSTS", Security, 4, OncePerWebsite, 4),
    Rule("LG-014", "SEC_HEADER_XFO", Security, 3, OncePerWebsite, 3),
    Rule("LG-014", "SEC_HEADER_XCTO", Security, 2, OncePerWebsite, 2),
    Rule("LG-014", "SEC_HEADER_RP", Security, 2, OncePerWebsite, 2),
    Rule("LG-014", "SEC_HEADER_PP", Security, 2, OncePerWebsite, 2)]

  const INTELLIGENCE_RULES: seq<Rule> := [
    Rule("LG-040", "STRUCTURED_DATA_MALFORMED", Seo, 3, BoundedPerPage, 9),
    Rule("LG-040", "STRUCTURED_DATA_DUPLICATE_TYPE", Seo, 1, BoundedPerPage, 3),
    Rule("LG-041", "HREFLANG_MALFORMED", Seo, 1, BoundedPerPage, 3),
    Rule("LG-041", "HREFLANG_CONFLICTING", Seo, 2, BoundedPerPage, 6),
    Rule("LG-041", "HREFLANG_CANONICAL_CONFLICT", Seo, 2, BoundedPerPage, 6),
    Rule("LG-041", "HREFLANG_MISSING_RECIPROCAL", Seo, 2, OncePerWebsite, 2),
    Rule("LG-042", "NO_CONSENT_MECHANISM_DETECTED", Security, 3, OncePerWebsite, 3),
    Rule("LG-043", "TRACKER_FIRED_BEFORE_CONSENT_GA4", Security, 4, OncePerWebsite, 4),
    Rule("LG-043", "TRACKER_FIRED_BEFORE_CONSENT_META_PIXEL", Security, 4, OncePerWebsite, 4),
    Rule("LG-043", "TRACKER_FIRED_BEFORE_CONSENT_GTM", Security, 4, OncePerWebsite, 4),
    Rule("LG-044", "DUPLICATE_CONTENT", Seo, 3, BoundedPerPage, 12)]

  /** The table in the order of the program's object literal. */
  const RULES: seq<Rule> := LEAD_RULES + ADVERTISING_RULES + SEO_RULES + SECURITY_RULES + INTELLIGENCE_RULES

  function ByKey(rules: seq<Rule>, key: string): (r: Option<Rule>)
    ensures r.Some? ==> r.value in rules && r.value.internalKey == key
    ensures r.None? ==> forall x :: x in rules ==> x.internalKey != key
  {
    if rules == [] then None
    else if rules[0].internalKey == key then Some(rules[0])
    else ByKey(rules[1..], key)
  }

  function ById(rules: seq<Rule>, ruleId: string, category: Category): (r: Option<Rule>)
    ensures r.Some? ==> r.value in rules && r.value.ruleId == ruleId && r.value.category == category
    ensures r.None? ==> forall x :: x in rules ==> x.ruleId != ruleId || x.category != category
  {
    if rules == [] then None
    else if rules[0].ruleId == ruleId && rules[0].category == category then Some(rules[0])
    else ById(rules[1..], ruleId, category)
  }

  /** The key by which a finding looks up its rule; empty when it has none. */
  function ScoreKey(f: Finding): string {
    OrElse(f.normalizedIssueKey, Coalesce(f.internalKey, ""))
  }

  function FindRule(f: Finding): Option<Rule> {
    var key := ScoreKey(f);
    if key != "" && ByKey(RULES, key).Some? then ByKey(RULES, key) else ById(RULES, f.ruleId, f.category)
  }

  /**
   A finding's rule is the one its key names; without such a rule it is one of its rule identifier
   and category, and without that there is none.
   */
  lemma RuleIsFound(f: Finding)
    ensures var key := OrElse(f.normalizedIssueKey, Coalesce(f.internalKey, ""));
            var named := key != "" && exists r :: r in RULES && r.internalKey == key;
            match FindRule(f)
            case Some(r) => r in RULES && (if named then r.internalKey == key else r.ruleId == f.ruleId && r.category == f.category)
            case None => !named && forall r :: r in RULES ==> r.ruleId != f.ruleId || r.category != f.category
  {
    hide RULES;
  }

  function GroupKey(f: Finding): string {
    var rule := FindRule(f);
    if rule.Some? then rule.value.internalKey else Coalesce(f.internalKey, f.ruleId)
  }

  /** Which findings without a rule are one group: those with the same internal key or, if they have none, those of one rule identifier. */
  lemma GroupsAreTold(f: Finding, g: Finding)
    requires FindRule(f).None? && FindRule(g).None?
    ensures f.internalKey.Some? && g.internalKey.Some? ==> (GroupKey(f) == GroupKey(g) <==> f.internalKey == g.internalKey)
    ensures f.internalKey.None? && g.internalKey.None? ==> (GroupKey(f) == GroupKey(g) <==> f.ruleId == g.ruleId)
  {
    hide FindRule;
  }

  // ---- facts about the table ----

  predicate Plain(r: Rule) {
    && 0 < r.defaultImpact <= r.maxPenalty
    && (r.policy == OncePerWebsite || r.policy == BoundedPerPage)
  }

  const ADVERTISING_KEYS := {"META_PIXEL_MISSING", "GA4_MISSING", "GTM_MISSING"}

  /** An advertising rule is one of three and costs four points once. */
  predicate CheapAdvertising(r: Rule) {
    r.category == Advertising ==>
      r.internalKey in ADVERTISING_KEYS && r.defaultImpact == 4 && r.policy == OncePerWebsite
  }

  lemma LeadRules(r: Rule)
    requires r in LEAD_RULES
    ensures Plain(r) && CheapAdvertising(r)
  {
  }

  lemma AdvertisingRules(r: Rule)
    requires r in ADVERTISING_RULES
    ensures Plain(r) && CheapAdvertising(r)
  {
  }

  lemma SeoRules(r: Rule)
    requires r in SEO_RULES
    ensures Plain(r) && CheapAdvertising(r)
  {
  }

  lemma SecurityRules(r: Rule)
    requires r in SECURITY_RULES
    ensures Plain(r) && CheapAdvertising(r)
  {
  }

  lemma IntelligenceRules(r: Rule)
    requires r in INTELLIGENCE_RULES
    ensures Plain(r) && CheapAdvertising(r)
  {
  }

  lemma TableFacts(r: Rule)
    requires r in RULES
    ensures Plain(r) && CheapAdvertising(r)
  {
    if r in LEAD_RULES {
      LeadRules(r);
    } else if r in ADVERTISING_RULES {
      AdvertisingRules(r);
    } else if r in SEO_RULES {
      SeoRules(r);
    } else if r in SECURITY_RULES {
      SecurityRules(r);
    } else {
      IntelligenceRules(r);
    }
  }
}
