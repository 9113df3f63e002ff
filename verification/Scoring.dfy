/**
 Scoring: findings are grouped by issue, each group costs a penalty by its policy, each
 pillar loses the penalties of its groups, and the overall score weighs the pillars.
 */
module Scoring {
  import opened Options
  import opened Findings
  import opened FiniteSets
  import opened ScoreRules

  // ---- groups ----

  /** The group keys in the order in which they first occur. */
  function Keys(fs: seq<Finding>): seq<string>
    decreases |fs|
  {
    if fs == [] then []
    else
      var ks, k := Keys(fs[..|fs| - 1]), GroupKey(fs[|fs| - 1]);
      if k in ks then ks else ks + [k]
  }

  /** The findings of one group, in order. */
  function Members(fs: seq<Finding>, k: string): seq<Finding>
    decreases |fs|
  {
    if fs == [] then []
    else
      var ms, f := Members(fs[..|fs| - 1], k), fs[|fs| - 1];
      if GroupKey(f) == k then ms + [f] else ms
  }

  function Urls(fs: seq<Finding>): set<string> {
    set i | 0 <= i < |fs| && HasUrl(fs[i]) :: fs[i].affectedUrl.value
  }

  function Occurrences(ms: seq<Finding>): nat {
    var n := if |Urls(ms)| > 0 then |Urls(ms)| else |ms|;
    if n > 1 then n else 1
  }

  function BaseImpact(f: Finding): int {
    var rule := FindRule(f);
    if rule.Some? then rule.value.defaultImpact else f.scoreImpact
  }

  function PolicyOf(f: Finding): Policy {
    var rule := FindRule(f);
    if rule.Some? then rule.value.policy else if f.scope == WebsiteScope then OncePerWebsite else BoundedPerPage
  }

  function MaxPenalty(f: Finding): int {
    var rule := FindRule(f);
    if rule.Some? then rule.value.maxPenalty else f.scoreImpact * 2
  }

  lemma ImpactFacts(f: Finding)
    requires f.scoreImpact >= 0
    ensures 0 <= BaseImpact(f) <= MaxPenalty(f)
  {
    var rule := FindRule(f);
    if rule.Some? {
      TableFacts(rule.value);
    }
  }

  predicate Once(p: Policy) {
    p == OncePerWebsite || p == OncePerAudit || p == SiteOnce
  }

  predicate Bounded(p: Policy) {
    p == BoundedPerPage || p == PageBounded
  }

  /** What a group costs; rule, scope and impact are those of its first finding. */
  function Penalty(ms: seq<Finding>): int
    requires ms != []
  {
    var base, n := BaseImpact(ms[0]), Occurrences(ms);
    if Once(PolicyOf(ms[0])) then base
    else if Bounded(PolicyOf(ms[0])) then (if n * base < MaxPenalty(ms[0]) then n * base else MaxPenalty(ms[0]))
    else n * base
  }

  lemma {:induction false} MembersOfKey(fs: seq<Finding>, k: string)
    ensures k in Keys(fs) <==> Members(fs, k) != []
    ensures forall f :: f in Members(fs, k) <==> f in fs && GroupKey(f) == k
    decreases |fs|
  {
    hide GroupKey;
    if fs != [] {
      var front, f := fs[..|fs| - 1], fs[|fs| - 1];
      MembersOfKey(front, k);
      assert fs == front + [f];
    }
  }

  lemma {:induction false} KeysAreDistinct(fs: seq<Finding>)
    ensures forall i, j :: 0 <= i < j < |Keys(fs)| ==> Keys(fs)[i] != Keys(fs)[j]
    decreases |fs|
  {
    if fs != [] {
      KeysAreDistinct(fs[..|fs| - 1]);
    }
  }

  // ---- pillars and overall ----

  /** What group `k` takes from pillar `c`; a group belongs to the category of its first finding. */
  function Cost(fs: seq<Finding>, k: string, c: Category): int {
    var ms := Members(fs, k);
    if ms != [] && ms[0].category == c then Penalty(ms) else 0
  }

  function Sum(fs: seq<Finding>, ks: seq<string>, c: Category): int {
    if ks == [] then 0 else Sum(fs, ks[..|ks| - 1], c) + Cost(fs, ks[|ks| - 1], c)
  }

  function Clamp(x: int): int {
    if x > 100 then 100 else if x < 0 then 0 else x
  }

  function Score(fs: seq<Finding>, c: Category): int {
    Clamp(100 - Sum(fs, Keys(fs), c))
  }

  /** Weights 35, 25, 20 and 20 of a hundred, rounded half up. */
  function Weigh(lead: int, advertising: int, seo: int, security: int): (r: int) {
    (7 * lead + 5 * advertising + 4 * seo + 4 * security + 10) / 20
  }

  datatype Scores = Scores(lead: int, advertising: int, seo: int, security: int, overall: int)

  function Weighed(lead: int, advertising: int, seo: int, security: int): Scores {
    Scores(lead, advertising, seo, security, Weigh(lead, advertising, seo, security))
  }

  function ScoresOf(fs: seq<Finding>): Scores {
    Weighed(Score(fs, Lead), Score(fs, Advertising), Score(fs, Seo), Score(fs, Security))
  }

  /** The overall score lies between the weakest and the strongest pillar. */
  lemma OverallIsBetween(lead: int, advertising: int, seo: int, security: int, low: int, high: int)
    requires low <= lead <= high && low <= advertising <= high && low <= seo <= high && low <= security <= high
    ensures low <= Weigh(lead, advertising, seo, security) <= high
  {
  }

  /** The overall score is the weighted mean of 35, 25, 20 and 20 per cent, to the nearest point and half a point up. */
  lemma OverallIsNearest(lead: int, advertising: int, seo: int, security: int)
    ensures var exact := 35 * lead + 25 * advertising + 20 * seo + 20 * security;
            -50 < 100 * Weigh(lead, advertising, seo, security) - exact <= 50
  {
  }

  function PillarOf(s: Scores, c: Category): int {
    match c
    case Lead => s.lead
    case Advertising => s.advertising
    case Seo => s.seo
    case Security => s.security
  }

  /**
   What a group without a table rule costs, by its first finding and the addresses it was found at:
   its impact once if it concerns the website; else its impact for one address, and twice that for more.
   */
  lemma UnruledPenalty(ms: seq<Finding>)
    requires ms != [] && FindRule(ms[0]).None? && ms[0].scoreImpact >= 0
    requires forall m :: m in ms ==> m.affectedUrl.Some? && m.affectedUrl.value != ""
    ensures ms[0].scope == WebsiteScope ==> Penalty(ms) == ms[0].scoreImpact
    ensures ms[0].scope != WebsiteScope && |Urls(ms)| == 1 ==> Penalty(ms) == ms[0].scoreImpact
    ensures ms[0].scope != WebsiteScope && |Urls(ms)| > 1 ==> Penalty(ms) == 2 * ms[0].scoreImpact
  {
    hide FindRule, Urls;
    SomeUrl(ms);
    if |Urls(ms)| > 1 {
      Scale(2, |Urls(ms)|, ms[0].scoreImpact);
    }
  }

  /** Without addresses, or with empty ones, the findings themselves are counted. */
  lemma UnplacedPenalty(ms: seq<Finding>)
    requires ms != [] && FindRule(ms[0]).None? && ms[0].scoreImpact >= 0
    requires forall m :: m in ms ==> m.affectedUrl == None || m.affectedUrl == Some("")
    ensures ms[0].scope == WebsiteScope || |ms| == 1 ==> Penalty(ms) == ms[0].scoreImpact
    ensures ms[0].scope != WebsiteScope && |ms| > 1 ==> Penalty(ms) == 2 * ms[0].scoreImpact
  {
    hide FindRule;
    assert forall i :: 0 <= i < |ms| ==> ms[i] in ms;
    assert Urls(ms) == {};
    hide Urls;
    if |ms| > 1 {
      Scale(2, |ms|, ms[0].scoreImpact);
    }
  }

  lemma SomeUrl(ms: seq<Finding>)
    requires ms != [] && HasUrl(ms[0])
    ensures |Urls(ms)| > 0
  {
    assert ms[0].affectedUrl.value in Urls(ms);
  }

  /** With a table rule: the rule's impact once, or for every address up to the rule's limit. */
  lemma RuledPenalty(ms: seq<Finding>)
    requires ms != [] && FindRule(ms[0]).Some? && forall m :: m in ms ==> HasUrl(m)
    ensures var rule, n := FindRule(ms[0]).value, |Urls(ms)|;
            && n > 0
            && (rule.policy == OncePerWebsite ==> Penalty(ms) == rule.defaultImpact)
            && (rule.policy == BoundedPerPage ==>
                  Penalty(ms) <= rule.maxPenalty && Penalty(ms) <= n * rule.defaultImpact
                  && (Penalty(ms) == rule.maxPenalty || Penalty(ms) == n * rule.defaultImpact))
  {
    hide FindRule, Urls;
    SomeUrl(ms);
  }

  // ---- appending a finding ----

  /** The one way in which another finding makes its group cheaper. */
  predicate Cheapens(ms: seq<Finding>, f: Finding)
    requires ms != []
  {
    && |ms| > 1 && HasUrl(f) && (forall m :: m in ms ==> !HasUrl(m))
    && !Once(PolicyOf(ms[0])) && BaseImpact(ms[0]) > 0
    && (Bounded(PolicyOf(ms[0])) ==> MaxPenalty(ms[0]) > BaseImpact(ms[0]))
  }

  lemma UrlsAppend(ms: seq<Finding>, f: Finding)
    ensures Urls(ms + [f]) == Urls(ms) + (if HasUrl(f) then {f.affectedUrl.value} else {})
  {
    var more := ms + [f];
    forall u | u in Urls(ms)
      ensures u in Urls(more)
    {
      var i :| 0 <= i < |ms| && HasUrl(ms[i]) && ms[i].affectedUrl.value == u;
      assert more[i] == ms[i];
    }
    if HasUrl(f) {
      assert more[|ms|] == f;
    }
  }

  lemma OccurrencesAppend(ms: seq<Finding>, f: Finding)
    requires ms != []
    ensures (|ms| > 1 && HasUrl(f) && forall m :: m in ms ==> !HasUrl(m)) ==>
              Occurrences(ms) == |ms| && Occurrences(ms + [f]) == 1
    ensures !(|ms| > 1 && HasUrl(f) && forall m :: m in ms ==> !HasUrl(m)) ==>
              Occurrences(ms) <= Occurrences(ms + [f])
  {
    UrlsAppend(ms, f);
    if HasUrl(f) && f.affectedUrl.value !in Urls(ms) {
      assert |Urls(ms + [f])| == |Urls(ms)| + 1;
    } else {
      assert Urls(ms + [f]) == Urls(ms);
    }
    if m :| m in ms && HasUrl(m) {
      var i :| 0 <= i < |ms| && ms[i] == m;
      assert m.affectedUrl.value in Urls(ms);
    } else {
      assert Urls(ms) == {};
    }
  }

  lemma Scale(n: nat, m: nat, base: nat)
    requires n <= m
    ensures n * base <= m * base
    ensures n < m && base > 0 ==> n * base < m * base
  {
  }

  /** A finding's group gets cheaper exactly when it brings the first URL to a group counted by its size. */
  lemma PenaltyAppend(ms: seq<Finding>, f: Finding)
    requires ms != [] && ms[0].scoreImpact >= 0
    ensures Penalty(ms + [f]) < Penalty(ms) <==> Cheapens(ms, f)
  {
    hide BaseImpact, MaxPenalty, PolicyOf, Occurrences;
    var base := BaseImpact(ms[0]);
    ImpactFacts(ms[0]);
    assert (ms + [f])[0] == ms[0];
    OccurrencesAppend(ms, f);
    var n, m := Occurrences(ms), Occurrences(ms + [f]);
    if n <= m {
      Scale(n, m, base);
    } else {
      Scale(m, n, base);
    }
  }

  lemma {:induction false} SumSame(fs: seq<Finding>, gs: seq<Finding>, ks: seq<string>, c: Category)
    requires forall k :: k in ks ==> Cost(fs, k, c) == Cost(gs, k, c)
    ensures Sum(fs, ks, c) == Sum(gs, ks, c)
    decreases |ks|
  {
    if ks != [] {
      SumSame(fs, gs, ks[..|ks| - 1], c);
    }
  }

  /** Only the cost of group `x` differs. */
  lemma {:induction false} SumChanges(fs: seq<Finding>, gs: seq<Finding>, ks: seq<string>, x: string, c: Category)
    requires forall i, j :: 0 <= i < j < |ks| ==> ks[i] != ks[j]
    requires x in ks && forall k :: k in ks && k != x ==> Cost(fs, k, c) == Cost(gs, k, c)
    ensures Sum(gs, ks, c) - Sum(fs, ks, c) == Cost(gs, x, c) - Cost(fs, x, c)
    decreases |ks|
  {
    var front, last := ks[..|ks| - 1], ks[|ks| - 1];
    if last == x {
      assert x !in front;
      SumSame(fs, gs, front, c);
    } else {
      assert x in front;
      SumChanges(fs, gs, front, x, c);
    }
  }

  lemma MembersAppend(fs: seq<Finding>, f: Finding, k: string)
    ensures Members(fs + [f], k) == if GroupKey(f) == k then Members(fs, k) + [f] else Members(fs, k)
  {
    assert (fs + [f])[..|fs|] == fs;
  }

  lemma SumAppend(fs: seq<Finding>, f: Finding, c: Category)
    ensures Sum(fs + [f], Keys(fs + [f]), c) - Sum(fs, Keys(fs), c)
         == Cost(fs + [f], GroupKey(f), c) - Cost(fs, GroupKey(f), c)
  {
    var gs, x, ks := fs + [f], GroupKey(f), Keys(fs);
    assert gs[..|fs|] == fs;
    forall k | k in ks && k != x
      ensures Cost(fs, k, c) == Cost(gs, k, c)
    {
      MembersAppend(fs, f, k);
    }
    if x in ks {
      KeysAreDistinct(fs);
      SumChanges(fs, gs, ks, x, c);
    } else {
      MembersOfKey(fs, x);
      SumSame(fs, gs, ks, c);
      assert (ks + [x])[..|ks|] == ks;
    }
  }

  predicate NonNegative(fs: seq<Finding>) {
    forall f :: f in fs ==> f.scoreImpact >= 0
  }

  /**
   Another finding raises a pillar exactly when it cheapens its group and the pillar is not
   still at zero; it never raises any other pillar.
   */
  lemma AppendRaisesPillar(fs: seq<Finding>, f: Finding, c: Category)
    requires NonNegative(fs + [f])
    ensures Score(fs + [f], c) > Score(fs, c) <==>
            && Members(fs, GroupKey(f)) != []
            && Members(fs, GroupKey(f))[0].category == c
            && Cheapens(Members(fs, GroupKey(f)), f)
            && Sum(fs + [f], Keys(fs + [f]), c) < 100
  {
    hide GroupKey, Penalty, Keys, Members, Sum, Cheapens;
    var k := GroupKey(f);
    var ms := Members(fs, k);
    assert f in fs + [f];
    SumAppend(fs, f, c);
    MembersAppend(fs, f, k);
    MembersOfKey(fs, k);
    if ms != [] {
      assert ms[0] in fs + [f];
      PenaltyAppend(ms, f);
      assert (ms + [f])[0] == ms[0];
    } else {
      assert ms + [f] == [f];
      PenaltyNonNegative([f]);
    }
    SumNonNegative(fs, Keys(fs), c);
    SumNonNegative(fs + [f], Keys(fs + [f]), c);
  }

  lemma PenaltyNonNegative(ms: seq<Finding>)
    requires ms != [] && ms[0].scoreImpact >= 0
    ensures Penalty(ms) >= 0
  {
    hide BaseImpact, MaxPenalty, PolicyOf, Occurrences;
    ImpactFacts(ms[0]);
    Scale(0, Occurrences(ms), BaseImpact(ms[0]));
  }

  lemma {:induction false} SumNonNegative(fs: seq<Finding>, ks: seq<string>, c: Category)
    requires NonNegative(fs)
    ensures Sum(fs, ks, c) >= 0
    decreases |ks|
  {
    if ks != [] {
      hide GroupKey, Members, Penalty;
      SumNonNegative(fs, ks[..|ks| - 1], c);
      var ms := Members(fs, ks[|ks| - 1]);
      MembersOfKey(fs, ks[|ks| - 1]);
      if ms != [] {
        assert ms[0] in ms;
        PenaltyNonNegative(ms);
      }
    }
  }

  /** No group holds findings with and findings without a URL. */
  predicate Unmixed(fs: seq<Finding>) {
    forall f, g :: f in fs && g in fs && GroupKey(f) == GroupKey(g) ==> HasUrl(f) == HasUrl(g)
  }

  /** Without mixed groups more findings never score better, in any pillar or overall. */
  lemma MoreFindingsScoreNoBetter(fs: seq<Finding>, f: Finding)
    requires NonNegative(fs + [f]) && Unmixed(fs + [f])
    ensures forall c :: Score(fs + [f], c) <= Score(fs, c)
    ensures ScoresOf(fs + [f]).overall <= ScoresOf(fs).overall
  {
    var ms := Members(fs, GroupKey(f));
    MembersOfKey(fs, GroupKey(f));
    assert f in fs + [f];
    if ms != [] {
      assert ms[0] in ms && ms[0] in fs + [f];
    }
    forall c
      ensures Score(fs + [f], c) <= Score(fs, c)
    {
      AppendRaisesPillar(fs, f, c);
    }
  }

  // ---- floors ----

  /** Every finding has a table rule of its own category. */
  predicate Ruled(fs: seq<Finding>) {
    forall f :: f in fs ==> FindRule(f).Some? && FindRule(f).value.category == f.category
  }

  lemma AdvertisingCost(fs: seq<Finding>, k: string)
    requires Ruled(fs)
    ensures Cost(fs, k, Advertising) == 0 || (k in ADVERTISING_KEYS && Cost(fs, k, Advertising) == 4)
  {
    hide FindRule, GroupKey;
    var ms := Members(fs, k);
    MembersOfKey(fs, k);
    if ms != [] {
      assert ms[0] in ms;
      KeyOfRuled(ms[0]);
      TableFacts(FindRule(ms[0]).value);
    }
  }

  lemma KeyOfRuled(f: Finding)
    requires FindRule(f).Some?
    ensures GroupKey(f) == FindRule(f).value.internalKey && FindRule(f).value in RULES
  {
  }

  function KeysIn(ks: seq<string>): set<string> {
    set k | k in ks
  }

  /** How many of the keys are advertising keys, each counted once. */
  lemma CountedKey(front: seq<string>, last: string)
    requires last !in front
    ensures |ADVERTISING_KEYS * KeysIn(front + [last])| ==
              |ADVERTISING_KEYS * KeysIn(front)| + if last in ADVERTISING_KEYS then 1 else 0
  {
    hide ADVERTISING_KEYS;
    var before := ADVERTISING_KEYS * KeysIn(front);
    assert KeysIn(front + [last]) == KeysIn(front) + {last};
    assert ADVERTISING_KEYS * KeysIn(front + [last]) == if last in ADVERTISING_KEYS then before + {last} else before;
  }

  lemma {:induction false} AdvertisingSum(fs: seq<Finding>, ks: seq<string>)
    requires Ruled(fs) && forall i, j :: 0 <= i < j < |ks| ==> ks[i] != ks[j]
    ensures Sum(fs, ks, Advertising) <= 4 * |ADVERTISING_KEYS * KeysIn(ks)|
    decreases |ks|
  {
    hide Ruled, ADVERTISING_KEYS, Cost, KeysIn;
    if ks != [] {
      var front, last := ks[..|ks| - 1], ks[|ks| - 1];
      assert ks == front + [last];
      AdvertisingSum(fs, front);
      AdvertisingCost(fs, last);
      CountedKey(front, last);
    }
  }

  lemma ThreeKeys(ks: set<string>)
    ensures |ADVERTISING_KEYS * ks| <= 3
  {
    assert |ADVERTISING_KEYS| <= 3;
    SubsetSize(ADVERTISING_KEYS * ks, ADVERTISING_KEYS);
  }

  /** However many findings there are, rule-table findings leave advertising at 88 and overall at 22. */
  lemma ScoresHaveFloors(fs: seq<Finding>)
    requires Ruled(fs)
    ensures Score(fs, Advertising) >= 88
    ensures ScoresOf(fs).overall >= 22
  {
    hide FindRule, Keys, Sum, GroupKey;
    KeysAreDistinct(fs);
    AdvertisingSum(fs, Keys(fs));
    ThreeKeys(KeysIn(Keys(fs)));
    hide ADVERTISING_KEYS, KeysIn;
  }

  // ---- the program's loops ----

  datatype Group = Group(rule: Option<Rule>, findings: seq<Finding>, category: Category)

  /** The groups are filled by the findings so far, and `order` tells in which order they came up. */
  ghost predicate Grouped(order: seq<string>, groups: map<string, Group>, fs: seq<Finding>) {
    && order == Keys(fs)
    && (forall k :: k in groups <==> k in order)
    && (forall k :: k in groups ==> IsGroup(groups[k], Members(fs, k)))
  }

  predicate IsGroup(g: Group, ms: seq<Finding>) {
    ms != [] && g == Group(FindRule(ms[0]), ms, ms[0].category)
  }

  lemma JoinGroup(g: Group, ms: seq<Finding>, f: Finding)
    requires IsGroup(g, ms)
    ensures IsGroup(g.(findings := g.findings + [f]), ms + [f])
  {
  }

  lemma KeysSnoc(fs: seq<Finding>, f: Finding)
    ensures Keys(fs + [f]) == if GroupKey(f) in Keys(fs) then Keys(fs) else Keys(fs) + [GroupKey(f)]
  {
    hide GroupKey;
    assert (fs + [f])[..|fs|] == fs;
  }

  /** One more finding joins its group, or founds it. */
  lemma GroupSnoc(order: seq<string>, groups: map<string, Group>, fs: seq<Finding>, f: Finding)
    requires Grouped(order, groups, fs)
    ensures var key := GroupKey(f);
            && (key in groups ==> Grouped(order, groups[key := groups[key].(findings := groups[key].findings + [f])], fs + [f]))
            && (key !in groups ==> Grouped(order + [key], groups[key := Group(FindRule(f), [f], f.category)], fs + [f]))
  {
    hide GroupKey, Keys, Members, IsGroup;
    var key := GroupKey(f);
    KeysSnoc(fs, f);
    MembersOfKey(fs, key);
    forall k
      ensures Members(fs + [f], k) == if k == key then Members(fs, k) + [f] else Members(fs, k)
    {
      MembersAppend(fs, f, k);
    }
    if key in groups {
      JoinGroup(groups[key], Members(fs, key), f);
    } else {
      FoundGroup(f);
    }
  }

  lemma FoundGroup(f: Finding)
    ensures IsGroup(Group(FindRule(f), [f], f.category), [] + [f])
  {
    assert [] + [f] == [f];
  }

  /** The filled group map and the order in which its keys were inserted. */
  method GroupFindings(fs: seq<Finding>) returns (order: seq<string>, groups: map<string, Group>)
    ensures order == Keys(fs)
    ensures forall k :: k in groups <==> k in order
    ensures forall k :: k in groups ==>
              var ms := Members(fs, k);
              ms != [] && groups[k] == Group(FindRule(ms[0]), ms, ms[0].category)
  {
    hide *;
    order, groups := [], map[];
    NoGroups();
    assert fs[..0] == [];
    for i := 0 to |fs|
      invariant Grouped(order, groups, fs[..i])
    {
      var f := fs[i];
      var key := GroupKey(f);
      assert fs[..i + 1] == fs[..i] + [f];
      GroupSnoc(order, groups, fs[..i], f);
      ghost var before := groups;
      if key !in groups {
        groups := groups[key := Group(FindRule(f), [], f.category)];
        order := order + [key];
        assert [] + [f] == [f];
      }
      groups := groups[key := groups[key].(findings := groups[key].findings + [f])];
      assert groups == before[key := groups[key]];
    }
    assert fs[..|fs|] == fs;
    GroupedMeans(order, groups, fs);
  }

  lemma NoGroups()
    ensures Grouped([], map[], [])
  {
  }

  lemma GroupedMeans(order: seq<string>, groups: map<string, Group>, fs: seq<Finding>)
    requires Grouped(order, groups, fs)
    ensures order == Keys(fs) && forall k :: k in groups <==> k in order
    ensures forall k :: k in groups ==>
              var ms := Members(fs, k);
              ms != [] && groups[k] == Group(FindRule(ms[0]), ms, ms[0].category)
  {
    hide Keys, Members, FindRule;
  }

  predicate Tally(totals: map<Category, int>, fs: seq<Finding>, ks: seq<string>) {
    && totals.Keys == {Lead, Advertising, Seo, Security}
    && totals[Lead] == Sum(fs, ks, Lead) && totals[Advertising] == Sum(fs, ks, Advertising)
    && totals[Seo] == Sum(fs, ks, Seo) && totals[Security] == Sum(fs, ks, Security)
  }

  lemma EmptyTally(fs: seq<Finding>)
    ensures Tally(map[Lead := 0, Advertising := 0, Seo := 0, Security := 0], fs, [])
  {
  }

  lemma TallySnoc(totals: map<Category, int>, fs: seq<Finding>, ks: seq<string>, k: string, c: Category, penalty: int)
    requires Tally(totals, fs, ks)
    requires forall x :: Cost(fs, k, x) == if x == c then penalty else 0
    ensures c in totals && Tally(totals[c := totals[c] + penalty], fs, ks + [k])
  {
    hide Cost;
    assert (ks + [k])[..|ks|] == ks;
    assert c == Lead || c == Advertising || c == Seo || c == Security;
  }

  /** The total deduction of every pillar. */
  method Deduct(fs: seq<Finding>) returns (totals: map<Category, int>)
    ensures Tally(totals, fs, Keys(fs))
  {
    hide FindRule, GroupKey, Penalty, Sum, Tally;
    var order, groups := GroupFindings(fs);
    totals := map[Lead := 0, Advertising := 0, Seo := 0, Security := 0];
    assert order[..0] == [];
    EmptyTally(fs);
    for i := 0 to |order|
      invariant Tally(totals, fs, order[..i])
    {
      var key := order[i];
      assert order[..i + 1] == order[..i] + [key];
      assert key in groups;
      var group := groups[key];
      TallySnoc(totals, fs, order[..i], key, group.category, Penalty(group.findings));
      totals := totals[group.category := totals[group.category] + Penalty(group.findings)];
    }
    assert order[..|order|] == order;
  }

  /** What the first version of the scoring takes from a pillar. */
  function Impact(fs: seq<Finding>, c: Category): int
    decreases |fs|
  {
    if fs == [] then 0
    else
      var f := fs[|fs| - 1];
      Impact(fs[..|fs| - 1], c) + if f.category == c then f.scoreImpact else 0
  }

  function LegacyScores(fs: seq<Finding>): Scores {
    Weighed(Clamp(100 - Impact(fs, Lead)), Clamp(100 - Impact(fs, Advertising)), Clamp(100 - Impact(fs, Seo)),
            Clamp(100 - Impact(fs, Security)))
  }

  /** In the first version a further finding takes its impact from its own pillar and nothing from the others. */
  lemma LegacyAppend(fs: seq<Finding>, f: Finding, c: Category)
    ensures var before, after := PillarOf(LegacyScores(fs), c), PillarOf(LegacyScores(fs + [f]), c);
            && 0 <= before <= 100
            && (f.category != c ==> after == before)
            && (f.category == c && 0 < before < 100 ==>
                  after == if before - f.scoreImpact > 100 then 100 else if before - f.scoreImpact < 0 then 0 else before - f.scoreImpact)
            && PillarOf(LegacyScores([]), c) == 100
  {
    assert (fs + [f])[..|fs|] == fs;
  }

  lemma WeighedFacts(lead: int, advertising: int, seo: int, security: int)
    requires 0 <= lead <= 100 && 0 <= advertising <= 100 && 0 <= seo <= 100 && 0 <= security <= 100
    ensures var r := Weighed(lead, advertising, seo, security);
            && (forall c :: 0 <= PillarOf(r, c) <= 100)
            && -50 < 100 * r.overall - (35 * r.lead + 25 * r.advertising + 20 * r.seo + 20 * r.security) <= 50
            && (lead == advertising == seo == security == 100 ==> r == Scores(100, 100, 100, 100, 100))
  {
  }

  lemma ScoresFacts(fs: seq<Finding>)
    ensures var r := ScoresOf(fs);
            && (forall c :: PillarOf(r, c) == Score(fs, c) && 0 <= PillarOf(r, c) <= 100)
            && -50 < 100 * r.overall - (35 * r.lead + 25 * r.advertising + 20 * r.seo + 20 * r.security) <= 50
            && (fs == [] ==> r == Scores(100, 100, 100, 100, 100))
  {
    hide Keys, Weigh, Sum;
    NothingCosts();
    WeighedFacts(Score(fs, Lead), Score(fs, Advertising), Score(fs, Seo), Score(fs, Security));
  }

  lemma NothingCosts()
    ensures forall c :: Sum([], Keys([]), c) == 0
  {
  }

  lemma LegacyFacts(fs: seq<Finding>)
    ensures var r := LegacyScores(fs);
            && (forall c :: 0 <= PillarOf(r, c) <= 100)
            && -50 < 100 * r.overall - (35 * r.lead + 25 * r.advertising + 20 * r.seo + 20 * r.security) <= 50
            && (fs == [] ==> r == Scores(100, 100, 100, 100, 100))
  {
    hide Weigh;
    WeighedFacts(Clamp(100 - Impact(fs, Lead)), Clamp(100 - Impact(fs, Advertising)), Clamp(100 - Impact(fs, Seo)),
                 Clamp(100 - Impact(fs, Security)));
  }

  /** Each pillar starts from a hundred, and both versions weigh the pillars alike. */
  method CalculateScores(fs: seq<Finding>, version: string) returns (r: Scores)
    ensures r == if version == "v1" then LegacyScores(fs) else ScoresOf(fs)
    ensures version != "v1" ==> forall c :: PillarOf(r, c) == Score(fs, c)
    ensures forall c :: 0 <= PillarOf(r, c) <= 100
    ensures -50 < 100 * r.overall - (35 * r.lead + 25 * r.advertising + 20 * r.seo + 20 * r.security) <= 50
    ensures fs == [] ==> r == Scores(100, 100, 100, 100, 100)
  {
    hide Sum, Keys, Weigh, PillarOf;
    ScoresFacts(fs);
    LegacyFacts(fs);
    if version == "v1" {
      var lead, advertising, seo, security := 100, 100, 100, 100;
      for i := 0 to |fs|
        invariant lead == 100 - Impact(fs[..i], Lead) && advertising == 100 - Impact(fs[..i], Advertising)
        invariant seo == 100 - Impact(fs[..i], Seo) && security == 100 - Impact(fs[..i], Security)
      {
        assert fs[..i + 1][..i] == fs[..i];
        match fs[i].category
        case Lead => lead := lead - fs[i].scoreImpact;
        case Advertising => advertising := advertising - fs[i].scoreImpact;
        case Seo => seo := seo - fs[i].scoreImpact;
        case Security => security := security - fs[i].scoreImpact;
      }
      assert fs[..|fs|] == fs;
      return Weighed(Clamp(lead), Clamp(advertising), Clamp(seo), Clamp(security));
    }
    var totals := Deduct(fs);
    r := Weighed(Clamp(100 - totals[Lead]), Clamp(100 - totals[Advertising]), Clamp(100 - totals[Seo]),
                 Clamp(100 - totals[Security]));
  }
}
