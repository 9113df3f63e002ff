/** The finding record shared by scoring, aggregation, ranking and monitoring. */
module Findings {
  import opened Options

  datatype Category = Lead | Advertising | Seo | Security

  datatype Scope = PageScope | WebsiteScope | AuditScope

  datatype Severity = Critical | High | Medium | Low | Info

  datatype Finding = Finding(
    ruleId: string,
    internalKey: Option<string>,
    normalizedIssueKey: Option<string>,
    category: Category,
    scope: Scope,
    severity: Severity,
    title: string,
    affectedUrl: Option<string>,
    scoreImpact: int)

  /** The program's `a ?? b`: only an absent value falls through. */
  function Coalesce(a: Option<string>, b: string): string {
    if a.Some? then a.value else b
  }

  /** The program's `a || b` on strings: an empty string falls through as well. */
  function OrElse(a: Option<string>, b: string): string {
    if a.Some? && a.value != "" then a.value else b
  }

  /** What names a finding's issue when findings are deduplicated and stored. */
  function IssueKey(f: Finding): string {
    Coalesce(f.normalizedIssueKey, Coalesce(f.internalKey, f.title))
  }

  predicate HasUrl(f: Finding) {
    OrElse(f.affectedUrl, "") != ""
  }

  /**
   Which findings are one issue: those with the same issue key; of those without one, the ones with
   the same internal key; of those without either, the ones with the same title.
   */
  lemma IssuesAreTold(f: Finding, g: Finding)
    ensures f.normalizedIssueKey.Some? && g.normalizedIssueKey.Some? ==>
              (IssueKey(f) == IssueKey(g) <==> f.normalizedIssueKey == g.normalizedIssueKey)
    ensures f.normalizedIssueKey.None? && g.normalizedIssueKey.None? && f.internalKey.Some? && g.internalKey.Some? ==>
              (IssueKey(f) == IssueKey(g) <==> f.internalKey == g.internalKey)
    ensures f.normalizedIssueKey.None? && g.normalizedIssueKey.None? && f.internalKey.None? && g.internalKey.None? ==>
              (IssueKey(f) == IssueKey(g) <==> f.title == g.title)
    ensures f.normalizedIssueKey.Some? && g.normalizedIssueKey.None? && g.internalKey.Some? ==>
              (IssueKey(f) == IssueKey(g) <==> f.normalizedIssueKey == g.internalKey)
  {
  }
}
