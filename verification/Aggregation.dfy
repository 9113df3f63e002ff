/**
 Deduplication of findings across scopes, and why it does not change the score: the audit
 path, which deduplicates, and the monitoring path, which does not, agree.
 */
module Aggregation {
  import opened Options
  import opened Findings
  import opened ScoreRules
  import opened Scoring

  function ScopeName(s: Scope): string {
    match s
    case PageScope => "PAGE"
    case WebsiteScope => "WEBSITE"
    case AuditScope => "AUDIT"
  }

  /** The composed key: page findings are told apart by their URL, all others are not. */
  function DedupeKey(f: Finding): string {
    if f.scope == PageScope
    then f.ruleId + "|" + ("PAGE|" + (Coalesce(f.affectedUrl, "") + ("|" + IssueKey(f))))
    else f.ruleId + "|" + (ScopeName(f.scope) + ("|" + IssueKey(f)))
  }

  predicate SeenKey(fs: seq<Finding>, key: string) {
    exists i :: 0 <= i < |fs| && DedupeKey(fs[i]) == key
  }

  /** The findings whose key has not occurred before, in order. */
  function Deduplicated(fs: seq<Finding>): seq<Finding>
    decreases |fs|
  {
    if fs == [] then []
    else
      var front, f := fs[..|fs| - 1], fs[|fs| - 1];
      if SeenKey(front, DedupeKey(f)) then Deduplicated(front) else Deduplicated(front) + [f]
  }

  method DeduplicateFindings(findings: seq<Finding>) returns (deduplicated: seq<Finding>)
    ensures deduplicated == Deduplicated(findings)
  {
    hide DedupeKey;
    deduplicated := [];
    var seen: set<string> := {};
    for i := 0 to |findings|
      invariant deduplicated == Deduplicated(findings[..i])
      invariant forall k :: k in seen <==> SeenKey(findings[..i], k)
    {
      var finding := findings[i];
      var key := DedupeKey(finding);
      assert findings[..i + 1][..i] == findings[..i];
      SeenKeyAppend(findings[..i], finding);
      assert findings[..i + 1] == findings[..i] + [finding];
      if key !in seen {
        seen := seen + {key};
        deduplicated := deduplicated + [finding];
      }
    }
    assert findings[..|findings|] == findings;
  }

  lemma SeenKeyAppend(fs: seq<Finding>, f: Finding)
    ensures forall k :: SeenKey(fs + [f], k) <==> SeenKey(fs, k) || k == DedupeKey(f)
  {
    forall k
      ensures SeenKey(fs + [f], k) <==> SeenKey(fs, k) || k == DedupeKey(f)
    {
      if SeenKey(fs, k) {
        var i :| 0 <= i < |fs| && DedupeKey(fs[i]) == k;
        assert (fs + [f])[i] == fs[i];
      }
      if k == DedupeKey(f) {
        assert (fs + [f])[|fs|] == f;
      }
    }
  }

  /** The result has every key of the input, each exactly once, on its first finding. */
  lemma {:induction false} DeduplicatedKeys(fs: seq<Finding>)
    ensures forall k :: SeenKey(Deduplicated(fs), k) <==> SeenKey(fs, k)
    ensures forall i, j :: 0 <= i < j < |Deduplicated(fs)| ==> DedupeKey(Deduplicated(fs)[i]) != DedupeKey(Deduplicated(fs)[j])
    decreases |fs|
  {
    if fs != [] {
      var front, f := fs[..|fs| - 1], fs[|fs| - 1];
      DeduplicatedKeys(front);
      SeenKeyAppend(front, f);
      SeenKeyAppend(Deduplicated(front), f);
      assert fs == front + [f];
      if !SeenKey(front, DedupeKey(f)) {
        var ds := Deduplicated(front);
        forall i | 0 <= i < |ds|
          ensures DedupeKey(ds[i]) != DedupeKey(f)
        {
          assert !SeenKey(ds, DedupeKey(f));
        }
      }
    }
  }

  lemma {:induction false} DistinctStays(fs: seq<Finding>)
    requires forall i, j :: 0 <= i < j < |fs| ==> DedupeKey(fs[i]) != DedupeKey(fs[j])
    ensures Deduplicated(fs) == fs
    decreases |fs|
  {
    hide DedupeKey;
    if fs != [] {
      var front := fs[..|fs| - 1];
      DistinctStays(front);
      assert fs == front + [fs[|fs| - 1]];
    }
  }

  lemma DeduplicationIsIdempotent(fs: seq<Finding>)
    ensures Deduplicated(Deduplicated(fs)) == Deduplicated(fs)
  {
    DeduplicatedKeys(fs);
    DistinctStays(Deduplicated(fs));
  }

  // ---- the composed key can be taken apart ----

  lemma SplitAtBar(a: string, x: string, b: string, y: string)
    requires a + "|" + x == b + "|" + y && '|' !in a && '|' !in b
    ensures a == b && x == y
  {
    var s := a + "|" + x;
    assert s[|a|] == '|' && s[|b|] == '|';
    assert forall i :: 0 <= i < |a| ==> s[i] == a[i];
    assert forall i :: 0 <= i < |b| ==> s[i] == b[i];
    assert |a| == |b|;
    assert s[..|a|] == a && s[..|b|] == b;
    assert s[|a| + 1..] == x && s[|b| + 1..] == y;
  }

  lemma SplitAtLastBar(x: string, a: string, y: string, b: string)
    requires x + ("|" + a) == y + ("|" + b) && '|' !in a && '|' !in b
    ensures a == b && x == y
  {
    var s := x + ("|" + a);
    assert s[|x|] == '|' && s[|y|] == '|';
    assert forall i :: |x| < i < |s| ==> s[i] == a[i - |x| - 1];
    assert forall i :: |y| < i < |s| ==> s[i] == b[i - |y| - 1];
    assert |x| == |y|;
    assert s[..|x|] == x && s[..|y|] == y;
    assert s[|x| + 1..] == a && s[|y| + 1..] == b;
  }

  /** Rule and issue keys as the scanners write them: a table issue key, no separator inside. */
  predicate Keyed(f: Finding) {
    && '|' !in f.ruleId && '|' !in IssueKey(f)
    && (f.normalizedIssueKey.Some? || f.internalKey.Some?)
    && IssueKey(f) != "" && ByKey(RULES, IssueKey(f)).Some?
  }

  lemma KeyedHasNoBar(f: Finding)
    requires Keyed(f)
    ensures '|' !in f.ruleId && '|' !in IssueKey(f)
  {
  }

  lemma KeyedRule(f: Finding)
    requires Keyed(f)
    ensures FindRule(f) == ByKey(RULES, IssueKey(f)) && FindRule(f).Some? && GroupKey(f) == IssueKey(f)
  {
    hide RULES;
  }

  /** What follows the scope in the composed key. */
  function Tail(f: Finding): string {
    if f.scope == PageScope then Coalesce(f.affectedUrl, "") + ("|" + IssueKey(f)) else IssueKey(f)
  }

  lemma DedupeKeyParts(f: Finding)
    ensures DedupeKey(f) == f.ruleId + "|" + (ScopeName(f.scope) + "|" + Tail(f))
  {
    assert "PAGE|" + Tail(f) == "PAGE" + "|" + Tail(f);
    assert ScopeName(f.scope) + ("|" + IssueKey(f)) == ScopeName(f.scope) + "|" + IssueKey(f);
  }

  lemma ScopeHasNoBar(s: Scope)
    ensures '|' !in ScopeName(s)
    ensures |ScopeName(s)| == if s == PageScope then 4 else if s == WebsiteScope then 7 else 5
  {
  }

  /**
   Findings have one composed key exactly if they agree in rule, scope and issue key and, on pages,
   in URL. So beyond one page the URL does not tell them apart.
   */
  lemma SameDedupeKey(f: Finding, g: Finding)
    requires '|' !in f.ruleId && '|' !in IssueKey(f) && '|' !in g.ruleId && '|' !in IssueKey(g)
    ensures DedupeKey(f) == DedupeKey(g) <==>
              && f.ruleId == g.ruleId && IssueKey(f) == IssueKey(g) && f.scope == g.scope
              && (f.scope == PageScope ==> Coalesce(f.affectedUrl, "") == Coalesce(g.affectedUrl, ""))
  {
    hide RULES, ByKey, IssueKey, ScopeName, DedupeKey;
    DedupeKeyParts(f);
    DedupeKeyParts(g);
    if DedupeKey(f) == DedupeKey(g) {
      KeyTakenApart(f, g);
    }
  }

  lemma KeyTakenApart(f: Finding, g: Finding)
    requires '|' !in f.ruleId && '|' !in IssueKey(f) && '|' !in g.ruleId && '|' !in IssueKey(g)
    requires DedupeKey(f) == DedupeKey(g)
    ensures f.ruleId == g.ruleId && IssueKey(f) == IssueKey(g) && f.scope == g.scope
    ensures f.scope == PageScope ==> Coalesce(f.affectedUrl, "") == Coalesce(g.affectedUrl, "")
  {
    hide RULES, ByKey, IssueKey, ScopeName, DedupeKey;
    DedupeKeyParts(f);
    DedupeKeyParts(g);
    SplitAtBar(f.ruleId, ScopeName(f.scope) + "|" + Tail(f), g.ruleId, ScopeName(g.scope) + "|" + Tail(g));
    ScopeHasNoBar(f.scope);
    ScopeHasNoBar(g.scope);
    SplitAtBar(ScopeName(f.scope), Tail(f), ScopeName(g.scope), Tail(g));
    if f.scope == PageScope {
      SplitAtLastBar(Coalesce(f.affectedUrl, ""), IssueKey(f), Coalesce(g.affectedUrl, ""), IssueKey(g));
    }
  }

  // ---- score neutrality ----

  /** Findings that share a composed key are counted once by the score as well. */
  predicate Countable(fs: seq<Finding>) {
    && (forall f :: f in fs ==> Keyed(f) && (Once(PolicyOf(f)) || HasUrl(f)))
    && (forall f, g :: f in fs && g in fs && DedupeKey(f) == DedupeKey(g) && f.scope != PageScope ==>
          Once(PolicyOf(f)) || f.affectedUrl == g.affectedUrl)
  }

  /** Group `k` after deduplication: the same first finding and, unless it is charged once, the same URLs. */
  ghost predicate SameGroup(fs: seq<Finding>, ds: seq<Finding>, k: string) {
    var ms, ns := Members(fs, k), Members(ds, k);
    && (ms == [] <==> ns == [])
    && (ms != [] ==> ms[0] == ns[0] && (Once(PolicyOf(ms[0])) || Urls(ms) == Urls(ns)))
  }

  lemma SameGroupAppend(fs: seq<Finding>, ds: seq<Finding>, f: Finding, k: string)
    requires SameGroup(fs, ds, k)
    ensures SameGroup(fs + [f], ds + [f], k)
  {
    hide GroupKey, PolicyOf;
    MembersAppend(fs, f, k);
    MembersAppend(ds, f, k);
    UrlsAppend(Members(fs, k), f);
    UrlsAppend(Members(ds, k), f);
  }

  /** A finding whose key was seen adds nothing to its group. */
  lemma SameGroupSkip(fs: seq<Finding>, ds: seq<Finding>, f: Finding, k: string)
    requires SameGroup(fs, ds, k) && SeenKey(fs, DedupeKey(f)) && Countable(fs + [f])
    ensures SameGroup(fs + [f], ds, k)
  {
    hide RULES, ByKey, FindRule, DedupeKey, Keyed, IssueKey, GroupKey, Members, Urls, Countable, SeenKey, PolicyOf, SameGroup;
    MembersAppend(fs, f, k);
    if GroupKey(f) == k {
      var g := SeenMember(fs, f);
      var ms := Members(fs, k);
      if !Once(PolicyOf(ms[0])) {
        SeenUrl(fs, f, g, ms[0]);
        UrlOfMember(ms, g);
        UrlsAppend(ms, f);
        assert Urls(ms + [f]) == Urls(ms);
      }
    }
    SameMembers(fs, ds, f, k);
  }

  lemma SameMembers(fs: seq<Finding>, ds: seq<Finding>, f: Finding, k: string)
    requires SameGroup(fs, ds, k)
    requires var ms, more := Members(fs, k), Members(fs + [f], k);
             more == ms || (more == ms + [f] && ms != [] && (Once(PolicyOf(ms[0])) || Urls(more) == Urls(ms)))
    ensures SameGroup(fs + [f], ds, k)
  {
    hide Members, Urls, PolicyOf, Once;
  }

  /** The finding that was seen under the same key belongs to the same group. */
  lemma SeenMember(fs: seq<Finding>, f: Finding) returns (g: Finding)
    requires SeenKey(fs, DedupeKey(f)) && Countable(fs + [f])
    ensures g in fs && DedupeKey(g) == DedupeKey(f) && GroupKey(g) == GroupKey(f)
    ensures g in Members(fs, GroupKey(f)) && Members(fs, GroupKey(f))[0] in Members(fs, GroupKey(f))
  {
    hide RULES, ByKey, FindRule, DedupeKey, Keyed, IssueKey, GroupKey, PolicyOf;
    var i :| 0 <= i < |fs| && DedupeKey(fs[i]) == DedupeKey(f);
    g := fs[i];
    assert g in fs + [f] && f in fs + [f];
    KeyedHasNoBar(f);
    KeyedHasNoBar(g);
    SameDedupeKey(f, g);
    KeyedRule(f);
    KeyedRule(g);
    MembersOfKey(fs, GroupKey(f));
    assert g in Members(fs, GroupKey(f));
  }

  /** Unless their group is charged once, both have the same URL. */
  lemma SeenUrl(fs: seq<Finding>, f: Finding, g: Finding, first: Finding)
    requires Countable(fs + [f]) && g in fs && DedupeKey(g) == DedupeKey(f)
    requires first in Members(fs, GroupKey(f)) && !Once(PolicyOf(first))
    ensures HasUrl(f) && HasUrl(g) && f.affectedUrl == g.affectedUrl
  {
    hide RULES, ByKey, FindRule, DedupeKey, Keyed, IssueKey, GroupKey, Once;
    MembersOfKey(fs, GroupKey(f));
    assert g in fs + [f] && f in fs + [f] && first in fs + [f];
    KeyedHasNoBar(f);
    KeyedHasNoBar(g);
    SameDedupeKey(f, g);
    KeyedRule(f);
    KeyedRule(first);
    KeyedRule(g);
  }

  lemma UrlOfMember(ms: seq<Finding>, g: Finding)
    requires g in ms && HasUrl(g)
    ensures g.affectedUrl.value in Urls(ms)
  {
    var j :| 0 <= j < |ms| && ms[j] == g;
  }

  lemma {:induction false} DeduplicationKeepsGroups(fs: seq<Finding>)
    requires Countable(fs)
    ensures Keys(Deduplicated(fs)) == Keys(fs)
    ensures forall k :: SameGroup(fs, Deduplicated(fs), k)
    decreases |fs|
  {
    hide GroupKey, Keyed, DedupeKey, PolicyOf;
    if fs != [] {
      var front, f := fs[..|fs| - 1], fs[|fs| - 1];
      assert fs == front + [f];
      DeduplicationKeepsGroups(front);
      var ds := Deduplicated(front);
      assert (ds + [f])[..|ds|] == ds;
      forall k
        ensures SameGroup(fs, Deduplicated(fs), k)
      {
        if SeenKey(front, DedupeKey(f)) {
          SameGroupSkip(front, ds, f, k);
        } else {
          SameGroupAppend(front, ds, f, k);
        }
      }
      if SeenKey(front, DedupeKey(f)) {
        SeenIsKeyed(front, f);
      }
    }
  }

  lemma SeenIsKeyed(fs: seq<Finding>, f: Finding)
    requires SeenKey(fs, DedupeKey(f)) && Countable(fs + [f])
    ensures GroupKey(f) in Keys(fs)
  {
    hide RULES, ByKey, FindRule, DedupeKey, Keyed, IssueKey;
    var i :| 0 <= i < |fs| && DedupeKey(fs[i]) == DedupeKey(f);
    assert fs[i] in fs + [f] && f in fs + [f];
    KeyedHasNoBar(f);
    KeyedHasNoBar(fs[i]);
    SameDedupeKey(f, fs[i]);
    KeyedRule(f);
    KeyedRule(fs[i]);
    MembersOfKey(fs, GroupKey(f));
    assert fs[i] in Members(fs, GroupKey(f));
  }

  lemma SameGroupCosts(fs: seq<Finding>, k: string, c: Category)
    requires Countable(fs) && SameGroup(fs, Deduplicated(fs), k)
    ensures Cost(fs, k, c) == Cost(Deduplicated(fs), k, c)
  {
    hide FindRule, GroupKey, Keyed, Deduplicated;
    var ms := Members(fs, k);
    if ms != [] && !Once(PolicyOf(ms[0])) {
      MembersOfKey(fs, k);
      assert ms[0] in ms;
      assert ms[0].affectedUrl.value in Urls(ms);
    }
  }

  /** Deduplication does not change any score. */
  lemma DeduplicationIsNeutral(fs: seq<Finding>)
    requires Countable(fs)
    ensures ScoresOf(Deduplicated(fs)) == ScoresOf(fs)
  {
    hide Countable, SameGroup, Deduplicated, Keys, Sum, Cost;
    DeduplicationKeepsGroups(fs);
    forall c
      ensures Score(Deduplicated(fs), c) == Score(fs, c)
    {
      forall k | k in Keys(fs)
        ensures Cost(fs, k, c) == Cost(Deduplicated(fs), k, c)
      {
        SameGroupCosts(fs, k, c);
      }
      SumSame(fs, Deduplicated(fs), Keys(fs), c);
    }
  }
}
