/**
 Ranking findings by priority: score, sort, keep the best finding of every issue. The order of
 strings under the program's locale is a parameter.
 */
module Ranking {
  import opened Options
  import opened Findings

  /**
   Strings compare by weight: two strings compare as equal exactly if they weigh the same, as
   different spellings of one character sequence may.
   */
  datatype Collation = Collation(weight: string -> string, atMost: (string, string) -> bool)

  ghost predicate TotalOrder(leq: Collation) {
    && (forall a, b :: leq.atMost(a, b) || leq.atMost(b, a))
    && (forall a, b :: leq.atMost(a, b) && leq.atMost(b, a) ==> a == b)
    && (forall a, b, c :: leq.atMost(a, b) && leq.atMost(b, c) ==> leq.atMost(a, c))
  }

  // ---- priority scores ----

  function SeverityWeight(s: Severity): int {
    match s
    case Critical => 100
    case High => 60
    case Medium => 30
    case Low => 10
    case Info => 0
  }

  function CategoryPriority(c: Category): int {
    match c
    case Lead => 20
    case Security => 15
    case Advertising => 10
    case Seo => 10
  }

  function FrequencyKey(f: Finding): string {
    Coalesce(f.internalKey, f.ruleId)
  }

  function DedupeKey(f: Finding): string {
    Coalesce(f.internalKey, f.ruleId + "_" + f.title)
  }

  /** The findings that share a frequency key. */
  function Alike(fs: seq<Finding>, key: string): seq<Finding>
    decreases |fs|
  {
    if fs == [] then []
    else
      var rest, f := Alike(fs[..|fs| - 1], key), fs[|fs| - 1];
      if FrequencyKey(f) == key then rest + [f] else rest
  }

  function Frequency(fs: seq<Finding>, key: string): nat {
    |Alike(fs, key)|
  }

  function PriorityScore(f: Finding, frequency: int): int {
    SeverityWeight(f.severity) + CategoryPriority(f.category) + f.scoreImpact * 2
    + (if f.scope == WebsiteScope || f.scope == AuditScope then 15 else 5)
    + (if frequency * 3 < 20 then frequency * 3 else 20)
  }

  datatype Scored = Scored(finding: Finding, priorityScore: int)

  function ScoredOf(f: Finding, all: seq<Finding>): Scored {
    Scored(f, PriorityScore(f, Frequency(all, FrequencyKey(f))))
  }

  function ScoreAll(fs: seq<Finding>, all: seq<Finding>): seq<Scored>
    decreases |fs|
  {
    if fs == [] then [] else ScoreAll(fs[..|fs| - 1], all) + [ScoredOf(fs[|fs| - 1], all)]
  }

  // ---- the order ----

  /** What the comparator looks at; of rule and title it sees the weight. */
  datatype Rank = Rank(score: int, impact: int, ruleId: string, title: string)

  function RankOf(leq: Collation, s: Scored): Rank {
    Rank(s.priorityScore, s.finding.scoreImpact, leq.weight(s.finding.ruleId), leq.weight(s.finding.title))
  }

  /** `a` need not come after `b`: higher score, then higher impact, then rule and title by locale. */
  predicate Before(leq: Collation, a: Rank, b: Rank) {
    if a.score != b.score then a.score > b.score
    else if a.impact != b.impact then a.impact > b.impact
    else if a.ruleId != b.ruleId then leq.atMost(a.ruleId, b.ruleId)
    else leq.atMost(a.title, b.title)
  }

  ghost predicate Sorted(leq: Collation, rs: seq<Rank>) {
    forall i, j :: 0 <= i <= j < |rs| ==> Before(leq, rs[i], rs[j])
  }

  function Ranks(leq: Collation, xs: seq<Scored>): seq<Rank> {
    seq(|xs|, i requires 0 <= i < |xs| => RankOf(leq, xs[i]))
  }

  /** The place of `x` in a sorted list, behind everything that need not come after it. */
  function Insert(leq: Collation, xs: seq<Scored>, x: Scored): seq<Scored>
    decreases |xs|
  {
    if xs == [] || Before(leq, RankOf(leq, xs[|xs| - 1]), RankOf(leq, x)) then xs + [x]
    else Insert(leq, xs[..|xs| - 1], x) + [xs[|xs| - 1]]
  }

  /** The library's stable sort. */
  function Sort(leq: Collation, xs: seq<Scored>): seq<Scored>
    decreases |xs|
  {
    if xs == [] then [] else Insert(leq, Sort(leq, xs[..|xs| - 1]), xs[|xs| - 1])
  }

  // ---- keeping the best of every issue ----

  predicate HasKey(xs: seq<Scored>, key: string) {
    exists i :: 0 <= i < |xs| && DedupeKey(xs[i].finding) == key
  }

  function Kept(xs: seq<Scored>): seq<Scored>
    decreases |xs|
  {
    if xs == [] then []
    else
      var front, x := xs[..|xs| - 1], xs[|xs| - 1];
      if HasKey(front, DedupeKey(x.finding)) then Kept(front) else Kept(front) + [x]
  }

  function Ranked(leq: Collation, fs: seq<Finding>): seq<Scored> {
    Kept(Sort(leq, ScoreAll(fs, fs)))
  }

  function FindingsOf(xs: seq<Scored>): seq<Finding> {
    seq(|xs|, i requires 0 <= i < |xs| => xs[i].finding)
  }

  method CountFrequency(findings: seq<Finding>) returns (frequency: map<string, nat>)
    ensures forall k :: (k in frequency <==> Frequency(findings, k) > 0)
    ensures forall k :: k in frequency ==> frequency[k] == Frequency(findings, k)
  {
    hide FrequencyKey;
    frequency := map[];
    for i := 0 to |findings|
      invariant forall k :: (k in frequency <==> Frequency(findings[..i], k) > 0)
      invariant forall k :: k in frequency ==> frequency[k] == Frequency(findings[..i], k)
    {
      assert findings[..i + 1][..i] == findings[..i];
      var key := FrequencyKey(findings[i]);
      frequency := frequency[key := (if key in frequency then frequency[key] else 0) + 1];
    }
    assert findings[..|findings|] == findings;
  }

  method ScoreFindings(findings: seq<Finding>) returns (scored: seq<Scored>)
    ensures scored == ScoreAll(findings, findings)
  {
    hide FrequencyKey, PriorityScore, Frequency;
    var frequency := CountFrequency(findings);
    scored := [];
    for i := 0 to |findings|
      invariant scored == ScoreAll(findings[..i], findings)
    {
      assert findings[..i + 1][..i] == findings[..i];
      var key := FrequencyKey(findings[i]);
      OwnFrequency(findings, i);
      scored := scored + [Scored(findings[i], PriorityScore(findings[i], if key in frequency then frequency[key] else 1))];
    }
    assert findings[..|findings|] == findings;
  }

  /** Keeps the first item of every dedupe key. */
  method KeepDistinct(scored: seq<Scored>) returns (r: seq<Finding>)
    ensures r == FindingsOf(Kept(scored))
  {
    hide DedupeKey;
    var seen: set<string> := {};
    r := [];
    for i := 0 to |scored|
      invariant r == FindingsOf(Kept(scored[..i]))
      invariant forall k :: k in seen <==> HasKey(scored[..i], k)
    {
      var item := scored[i];
      assert scored[..i + 1][..i] == scored[..i];
      assert scored[..i + 1] == scored[..i] + [item];
      HasKeyAppend(scored[..i], item);
      if DedupeKey(item.finding) !in seen {
        seen := seen + {DedupeKey(item.finding)};
        r := r + [item.finding];
      }
    }
    assert scored[..|scored|] == scored;
  }

  /** The ranking: most urgent first, one finding of every issue, and none less urgent than those it stands for. */
  method RankFindings(leq: Collation, findings: seq<Finding>) returns (r: seq<Finding>)
    ensures r == FindingsOf(Ranked(leq, findings))
    ensures TotalOrder(leq) ==> forall i, j :: 0 <= i < j < |r| ==>
              Urgency(findings, r[i]) >= Urgency(findings, r[j]) && DedupeKey(r[i]) != DedupeKey(r[j])
    ensures TotalOrder(leq) ==> forall f :: f in findings ==>
              exists i :: 0 <= i < |r| && DedupeKey(r[i]) == DedupeKey(f) && Urgency(findings, r[i]) >= Urgency(findings, f)
    ensures TotalOrder(leq) ==> forall f :: f in r ==> f in findings
  {
    if |findings| == 0 {
      return [];
    }
    var scored := ScoreFindings(findings);
    r := KeepDistinct(Sort(leq, scored));
    hide *;
    if TotalOrder(leq) {
      RankingIsUrgent(leq, findings, r);
    }
  }

  lemma HasKeyAppend(xs: seq<Scored>, x: Scored)
    ensures forall k :: HasKey(xs + [x], k) <==> HasKey(xs, k) || k == DedupeKey(x.finding)
  {
    forall k
      ensures HasKey(xs + [x], k) <==> HasKey(xs, k) || k == DedupeKey(x.finding)
    {
      if HasKey(xs, k) {
        var i :| 0 <= i < |xs| && DedupeKey(xs[i].finding) == k;
        assert (xs + [x])[i] == xs[i];
      }
      if k == DedupeKey(x.finding) {
        assert (xs + [x])[|xs|] == x;
      }
    }
  }

  lemma {:induction false} OwnFrequency(fs: seq<Finding>, i: nat)
    requires i < |fs|
    ensures Frequency(fs, FrequencyKey(fs[i])) > 0
    decreases |fs|
  {
    if i < |fs| - 1 {
      OwnFrequency(fs[..|fs| - 1], i);
    }
  }

  // ---- sorting ----

  lemma SortedExtends(leq: Collation, rs: seq<Rank>, r: Rank)
    requires Sorted(leq, rs) && TotalOrder(leq) && forall i :: 0 <= i < |rs| ==> Before(leq, rs[i], r)
    ensures Sorted(leq, rs + [r])
  {
  }

  lemma SortedBefore(leq: Collation, rs: seq<Rank>, r: Rank)
    requires Sorted(leq, rs) && TotalOrder(leq) && (rs == [] || Before(leq, rs[|rs| - 1], r))
    ensures forall i :: 0 <= i < |rs| ==> Before(leq, rs[i], r)
  {
    forall i | 0 <= i < |rs|
      ensures Before(leq, rs[i], r)
    {
      assert Before(leq, rs[i], rs[|rs| - 1]);
    }
  }

  lemma {:induction false} InsertKeeps(leq: Collation, xs: seq<Scored>, x: Scored)
    requires TotalOrder(leq) && Sorted(leq, Ranks(leq, xs))
    ensures multiset(Insert(leq, xs, x)) == multiset(xs) + multiset{x}
    ensures Sorted(leq, Ranks(leq, Insert(leq, xs, x)))
    decreases |xs|
  {
    if xs == [] || Before(leq, RankOf(leq, xs[|xs| - 1]), RankOf(leq, x)) {
      SortedBefore(leq, Ranks(leq, xs), RankOf(leq, x));
      SortedExtends(leq, Ranks(leq, xs), RankOf(leq, x));
      assert Ranks(leq, xs + [x]) == Ranks(leq, xs) + [RankOf(leq, x)];
    } else {
      InsertInside(leq, xs, x);
    }
  }

  lemma {:induction false} InsertInside(leq: Collation, xs: seq<Scored>, x: Scored)
    requires TotalOrder(leq) && Sorted(leq, Ranks(leq, xs)) && xs != []
    requires !Before(leq, RankOf(leq, xs[|xs| - 1]), RankOf(leq, x))
    ensures multiset(Insert(leq, xs, x)) == multiset(xs) + multiset{x}
    ensures Sorted(leq, Ranks(leq, Insert(leq, xs, x)))
    decreases |xs|, 0
  {
    hide TotalOrder;
    var front, last := xs[..|xs| - 1], xs[|xs| - 1];
    assert xs == front + [last];
    assert Ranks(leq, front) == Ranks(leq, xs)[..|xs| - 1];
    InsertKeeps(leq, front, x);
    var mid := Insert(leq, front, x);
    BeforeIsTotal(leq, RankOf(leq, x), RankOf(leq, last));
    forall i | 0 <= i < |mid|
      ensures Before(leq, Ranks(leq, mid)[i], RankOf(leq, last))
    {
      assert mid[i] in multiset(mid);
      if mid[i] != x {
        assert mid[i] in multiset(front) && mid[i] in front;
        var k :| 0 <= k < |front| && front[k] == mid[i];
        assert Before(leq, Ranks(leq, xs)[k], Ranks(leq, xs)[|xs| - 1]);
      }
    }
    SortedExtends(leq, Ranks(leq, mid), RankOf(leq, last));
    assert Ranks(leq, mid + [last]) == Ranks(leq, mid) + [RankOf(leq, last)];
  }

  lemma BeforeIsTotal(leq: Collation, a: Rank, b: Rank)
    requires TotalOrder(leq)
    ensures Before(leq, a, b) || Before(leq, b, a)
    ensures Before(leq, a, b) && Before(leq, b, a) ==> a == b
  {
  }

  lemma {:induction false} SortSorts(leq: Collation, xs: seq<Scored>)
    requires TotalOrder(leq)
    ensures multiset(Sort(leq, xs)) == multiset(xs)
    ensures Sorted(leq, Ranks(leq, Sort(leq, xs)))
    decreases |xs|
  {
    if xs != [] {
      var front, x := xs[..|xs| - 1], xs[|xs| - 1];
      SortSorts(leq, front);
      InsertKeeps(leq, Sort(leq, front), x);
      assert xs == front + [x];
    }
  }

  // ---- the result does not depend on the input's order ----

  lemma {:induction false} AlikeCounts(fs: seq<Finding>, key: string)
    ensures forall f :: multiset(Alike(fs, key))[f] == if FrequencyKey(f) == key then multiset(fs)[f] else 0
    decreases |fs|
  {
    hide FrequencyKey;
    if fs != [] {
      AlikeCounts(fs[..|fs| - 1], key);
      assert fs == fs[..|fs| - 1] + [fs[|fs| - 1]];
    }
  }

  lemma FrequencyIsUnordered(fs: seq<Finding>, gs: seq<Finding>, key: string)
    requires multiset(fs) == multiset(gs)
    ensures Frequency(fs, key) == Frequency(gs, key)
  {
    AlikeCounts(fs, key);
    AlikeCounts(gs, key);
    assert multiset(Alike(fs, key)) == multiset(Alike(gs, key));
    assert |multiset(Alike(fs, key))| == |multiset(Alike(gs, key))|;
  }

  lemma {:induction false} ScoreAllCounts(fs: seq<Finding>, all: seq<Finding>)
    ensures forall x :: multiset(ScoreAll(fs, all))[x] == if x == ScoredOf(x.finding, all) then multiset(fs)[x.finding] else 0
    decreases |fs|
  {
    hide ScoredOf;
    if fs != [] {
      var front, f := fs[..|fs| - 1], fs[|fs| - 1];
      ScoreAllCounts(front, all);
      assert fs == front + [f];
      assert ScoredOf(f, all).finding == f by {
        ScoredOfFinding(f, all);
      }
    }
  }

  lemma ScoredOfFinding(f: Finding, all: seq<Finding>)
    ensures ScoredOf(f, all).finding == f
  {
  }

  lemma ScoreAllIsUnordered(fs: seq<Finding>, gs: seq<Finding>)
    requires multiset(fs) == multiset(gs)
    ensures multiset(ScoreAll(fs, fs)) == multiset(ScoreAll(gs, gs))
  {
    hide PriorityScore, FrequencyKey, Frequency, ScoreAll;
    ScoreAllCounts(fs, fs);
    ScoreAllCounts(gs, gs);
    forall x: Scored
      ensures multiset(ScoreAll(fs, fs))[x] == multiset(ScoreAll(gs, gs))[x]
    {
      FrequencyIsUnordered(fs, gs, FrequencyKey(x.finding));
    }
  }

  /** The rank of the first item with a key. */
  function FirstRank(leq: Collation, xs: seq<Scored>, key: string): Rank
    requires HasKey(xs, key)
    decreases |xs|
  {
    var front := xs[..|xs| - 1];
    if HasKey(front, key) then FirstRank(leq, front, key) else RankOf(leq, xs[|xs| - 1])
  }

  function KeySet(xs: seq<Scored>): set<string> {
    set i | 0 <= i < |xs| :: DedupeKey(xs[i].finding)
  }

  /** The keys whose first item has rank `r`. */
  function KeysAt(leq: Collation, xs: seq<Scored>, r: Rank): set<string> {
    set k | k in KeySet(xs) && FirstRank(leq, xs, k) == r
  }

  lemma KeySetAppend(front: seq<Scored>, x: Scored)
    ensures KeySet(front + [x]) == KeySet(front) + {DedupeKey(x.finding)}
  {
    hide DedupeKey;
    assert (front + [x])[|front|] == x;
    forall k | k in KeySet(front)
      ensures k in KeySet(front + [x])
    {
      var i :| 0 <= i < |front| && DedupeKey(front[i].finding) == k;
      assert (front + [x])[i] == front[i];
    }
  }

  lemma KeysAtAppend(leq: Collation, front: seq<Scored>, x: Scored, r: Rank)
    ensures KeysAt(leq, front + [x], r) ==
            if HasKey(front, DedupeKey(x.finding)) || RankOf(leq, x) != r then KeysAt(leq, front, r)
            else KeysAt(leq, front, r) + {DedupeKey(x.finding)}
  {
    hide DedupeKey, RankOf;
    var xs := front + [x];
    assert xs[..|xs| - 1] == front;
    KeySetAppend(front, x);
    forall k | k in KeySet(front)
      ensures HasKey(front, k) && FirstRank(leq, xs, k) == FirstRank(leq, front, k)
    {
      var i :| 0 <= i < |front| && DedupeKey(front[i].finding) == k;
    }
  }

  lemma {:induction false} KeptCounts(leq: Collation, xs: seq<Scored>, r: Rank)
    ensures multiset(Ranks(leq, Kept(xs)))[r] == |KeysAt(leq, xs, r)|
    decreases |xs|
  {
    hide DedupeKey, RankOf, KeysAt;
    if xs == [] {
      NoKeysAt(leq, r);
    } else {
      var front, x := xs[..|xs| - 1], xs[|xs| - 1];
      assert xs == front + [x];
      KeptCounts(leq, front, r);
      KeysAtAppend(leq, front, x, r);
      if !HasKey(front, DedupeKey(x.finding)) {
        assert Ranks(leq, Kept(front) + [x]) == Ranks(leq, Kept(front)) + [RankOf(leq, x)];
        KeysAtHave(leq, front, r, DedupeKey(x.finding));
      }
    }
  }

  lemma NoKeysAt(leq: Collation, r: Rank)
    ensures KeysAt(leq, [], r) == {}
  {
  }

  lemma KeysAtHave(leq: Collation, xs: seq<Scored>, r: Rank, key: string)
    ensures key in KeysAt(leq, xs, r) ==> HasKey(xs, key)
  {
  }

  /** In a sorted list the first item of a key is its best one. */
  lemma {:induction false} FirstIsBest(leq: Collation, xs: seq<Scored>, i: nat)
    requires TotalOrder(leq) && Sorted(leq, Ranks(leq, xs)) && i < |xs|
    ensures HasKey(xs, DedupeKey(xs[i].finding))
    ensures Before(leq, FirstRank(leq, xs, DedupeKey(xs[i].finding)), RankOf(leq, xs[i]))
    decreases |xs|
  {
    hide TotalOrder, DedupeKey, RankOf, Before;
    var front, key, n := xs[..|xs| - 1], DedupeKey(xs[i].finding), |xs|;
    assert Ranks(leq, front) == Ranks(leq, xs)[..n - 1];
    assert Before(leq, Ranks(leq, xs)[i], Ranks(leq, xs)[i]);
    if HasKey(front, key) {
      if i < n - 1 {
        FirstIsBest(leq, front, i);
      } else {
        var j :| 0 <= j < |front| && DedupeKey(front[j].finding) == key;
        FirstIsBest(leq, front, j);
        assert Before(leq, Ranks(leq, xs)[j], Ranks(leq, xs)[i]);
        BeforeIsTransitive(leq, FirstRank(leq, front, key), Ranks(leq, xs)[j], Ranks(leq, xs)[i]);
      }
    }
  }

  lemma BeforeIsTransitive(leq: Collation, a: Rank, b: Rank, c: Rank)
    requires TotalOrder(leq) && Before(leq, a, b) && Before(leq, b, c)
    ensures Before(leq, a, c)
  {
  }

  lemma {:induction false} FirstIsThere(leq: Collation, xs: seq<Scored>, key: string)
    requires HasKey(xs, key)
    ensures exists i :: 0 <= i < |xs| && DedupeKey(xs[i].finding) == key && RankOf(leq, xs[i]) == FirstRank(leq, xs, key)
    decreases |xs|
  {
    hide DedupeKey, RankOf;
    var front := xs[..|xs| - 1];
    if HasKey(front, key) {
      FirstIsThere(leq, front, key);
      var i :| 0 <= i < |front| && DedupeKey(front[i].finding) == key && RankOf(leq, front[i]) == FirstRank(leq, front, key);
      assert xs[i] == front[i];
    } else {
      assert xs == front + [xs[|xs| - 1]];
      HasKeyAppend(front, xs[|xs| - 1]);
    }
  }

  /** Two sorted lists of the same items have the same best rank for every key. */
  lemma FirstRankNotAfter(leq: Collation, xs: seq<Scored>, ys: seq<Scored>, key: string)
    requires TotalOrder(leq) && Sorted(leq, Ranks(leq, xs)) && multiset(xs) == multiset(ys) && HasKey(ys, key)
    ensures HasKey(xs, key) && Before(leq, FirstRank(leq, xs, key), FirstRank(leq, ys, key))
  {
    hide TotalOrder, DedupeKey, RankOf, Before;
    FirstIsThere(leq, ys, key);
    var j :| 0 <= j < |ys| && DedupeKey(ys[j].finding) == key && RankOf(leq, ys[j]) == FirstRank(leq, ys, key);
    assert ys[j] in multiset(ys) && ys[j] in multiset(xs) && ys[j] in xs;
    var i :| 0 <= i < |xs| && xs[i] == ys[j];
    FirstIsBest(leq, xs, i);
  }

  lemma KeysAtIsUnordered(leq: Collation, xs: seq<Scored>, ys: seq<Scored>, r: Rank)
    requires TotalOrder(leq) && Sorted(leq, Ranks(leq, xs)) && Sorted(leq, Ranks(leq, ys)) && multiset(xs) == multiset(ys)
    ensures KeysAt(leq, xs, r) == KeysAt(leq, ys, r)
  {
    hide TotalOrder, DedupeKey, RankOf, Before, Sorted;
    forall k
      ensures k in KeysAt(leq, xs, r) <==> k in KeysAt(leq, ys, r)
    {
      if k in KeySet(xs) {
        SameFirstRank(leq, xs, ys, k);
      } else if k in KeySet(ys) {
        SameFirstRank(leq, ys, xs, k);
      }
    }
  }

  lemma SameFirstRank(leq: Collation, xs: seq<Scored>, ys: seq<Scored>, k: string)
    requires TotalOrder(leq) && Sorted(leq, Ranks(leq, xs)) && Sorted(leq, Ranks(leq, ys)) && multiset(xs) == multiset(ys)
    requires k in KeySet(xs)
    ensures k in KeySet(ys) && FirstRank(leq, xs, k) == FirstRank(leq, ys, k)
  {
    hide TotalOrder, DedupeKey, RankOf, Before, Sorted;
    assert HasKey(xs, k);
    FirstRankNotAfter(leq, ys, xs, k);
    FirstRankNotAfter(leq, xs, ys, k);
    BeforeIsTotal(leq, FirstRank(leq, xs, k), FirstRank(leq, ys, k));
    var i :| 0 <= i < |ys| && DedupeKey(ys[i].finding) == k;
  }

  /** The last of a sorted list is not before any other list's item of the same multiset. */
  lemma LastIsLast(leq: Collation, rs: seq<Rank>, r: Rank)
    requires Sorted(leq, rs) && r in multiset(rs)
    ensures Before(leq, r, rs[|rs| - 1])
  {
    assert r in rs;
    var j :| 0 <= j < |rs| && rs[j] == r;
  }

  lemma SplitLast(leq: Collation, rs: seq<Rank>)
    requires Sorted(leq, rs) && rs != []
    ensures var front, r := rs[..|rs| - 1], rs[|rs| - 1];
            && rs == front + [r]
            && r in multiset(rs)
            && Sorted(leq, front)
            && multiset(front) == multiset(rs) - multiset{r}
  {
    var front, r := rs[..|rs| - 1], rs[|rs| - 1];
    assert rs == front + [r];
    assert multiset(rs) == multiset(front) + multiset{r};
  }

  /** A multiset has one sorted arrangement. */
  lemma {:induction false} SortedIsUnique(leq: Collation, rs: seq<Rank>, ss: seq<Rank>)
    requires TotalOrder(leq) && Sorted(leq, rs) && Sorted(leq, ss) && multiset(rs) == multiset(ss)
    ensures rs == ss
    decreases |rs|
  {
    hide TotalOrder, Before, Sorted;
    assert |multiset(rs)| == |multiset(ss)|;
    if rs != [] {
      var r, s := rs[|rs| - 1], ss[|ss| - 1];
      SplitLast(leq, rs);
      SplitLast(leq, ss);
      LastIsLast(leq, rs, s);
      LastIsLast(leq, ss, r);
      BeforeIsTotal(leq, r, s);
      SortedIsUnique(leq, rs[..|rs| - 1], ss[..|ss| - 1]);
    }
  }

  lemma {:induction false} KeptIsSorted(leq: Collation, xs: seq<Scored>)
    requires TotalOrder(leq) && Sorted(leq, Ranks(leq, xs))
    ensures Sorted(leq, Ranks(leq, Kept(xs)))
    ensures forall x :: x in Kept(xs) ==> x in xs
    decreases |xs|
  {
    hide DedupeKey, Before, RankOf;
    if xs != [] {
      var n := |xs|;
      var front, x := xs[..n - 1], xs[n - 1];
      assert xs == front + [x];
      assert Ranks(leq, front) == Ranks(leq, xs)[..n - 1];
      KeptIsSorted(leq, front);
      var ks := Kept(front);
      forall i | 0 <= i < |ks|
        ensures Before(leq, Ranks(leq, ks)[i], RankOf(leq, x))
      {
        assert ks[i] in front;
        var j :| 0 <= j < |front| && front[j] == ks[i];
        assert Before(leq, Ranks(leq, xs)[j], Ranks(leq, xs)[n - 1]);
      }
      SortedExtends(leq, Ranks(leq, ks), RankOf(leq, x));
      assert Ranks(leq, ks + [x]) == Ranks(leq, ks) + [RankOf(leq, x)];
    }
  }

  /** A finding's rank among all of them. */
  function RankIn(leq: Collation, fs: seq<Finding>, f: Finding): Rank {
    RankOf(leq, ScoredOf(f, fs))
  }

  /** No finding of the same issue ranks ahead of this one. */
  ghost predicate IsBest(leq: Collation, fs: seq<Finding>, f: Finding) {
    f in fs && forall g :: g in fs && DedupeKey(g) == DedupeKey(f) ==> Before(leq, RankIn(leq, fs, f), RankIn(leq, fs, g))
  }

  /** Two findings that are best of their issues and between which the comparator does not decide. */
  ghost predicate Tie(leq: Collation, fs: seq<Finding>, f: Finding, g: Finding) {
    IsBest(leq, fs, f) && IsBest(leq, fs, g) && RankIn(leq, fs, f) == RankIn(leq, fs, g)
  }

  /** For every order of the input the ranking has the same scores and impacts, and rules and titles of the same weight. */
  lemma RankingIsUnordered(leq: Collation, fs: seq<Finding>, gs: seq<Finding>)
    requires TotalOrder(leq) && multiset(fs) == multiset(gs)
    ensures Ranks(leq, Ranked(leq, fs)) == Ranks(leq, Ranked(leq, gs))
    ensures |Ranked(leq, fs)| == |Ranked(leq, gs)|
    ensures forall i :: 0 <= i < |Ranked(leq, fs)| ==>
              leq.weight(Ranked(leq, fs)[i].finding.title) == leq.weight(Ranked(leq, gs)[i].finding.title)
  {
    hide TotalOrder, Sorted, ScoreAll, Sort, Kept, KeysAt;
    var xs, ys := Sort(leq, ScoreAll(fs, fs)), Sort(leq, ScoreAll(gs, gs));
    ScoreAllIsUnordered(fs, gs);
    SortSorts(leq, ScoreAll(fs, fs));
    SortSorts(leq, ScoreAll(gs, gs));
    KeptIsSorted(leq, xs);
    KeptIsSorted(leq, ys);
    forall r
      ensures multiset(Ranks(leq, Kept(xs)))[r] == multiset(Ranks(leq, Kept(ys)))[r]
    {
      KeptCounts(leq, xs, r);
      KeptCounts(leq, ys, r);
      KeysAtIsUnordered(leq, xs, ys, r);
    }
    assert multiset(Ranks(leq, Kept(xs))) == multiset(Ranks(leq, Kept(ys)));
    SortedIsUnique(leq, Ranks(leq, Kept(xs)), Ranks(leq, Kept(ys)));
    forall i | 0 <= i < |Kept(xs)|
      ensures leq.weight(Kept(xs)[i].finding.title) == leq.weight(Kept(ys)[i].finding.title)
    {
      assert Ranks(leq, Kept(xs))[i].title == Ranks(leq, Kept(ys))[i].title;
    }
  }

  // ---- when the ranking itself does not depend on the input's order ----

  lemma RankInIsUnordered(leq: Collation, fs: seq<Finding>, gs: seq<Finding>, f: Finding)
    requires multiset(fs) == multiset(gs)
    ensures RankIn(leq, fs, f) == RankIn(leq, gs, f)
    ensures IsBest(leq, fs, f) <==> IsBest(leq, gs, f)
  {
    hide PriorityScore, FrequencyKey, Frequency, Before, RankOf, DedupeKey;
    assert forall x :: x in fs <==> x in multiset(fs);
    assert forall x :: x in gs <==> x in multiset(gs);
    forall x
      ensures RankIn(leq, fs, x) == RankIn(leq, gs, x)
    {
      FrequencyIsUnordered(fs, gs, FrequencyKey(x));
    }
  }

  /** Every finding that is ranked is the best of its issue. */
  lemma RankedAreBest(leq: Collation, fs: seq<Finding>, i: nat)
    requires TotalOrder(leq) && i < |Ranked(leq, fs)|
    ensures var x := Ranked(leq, fs)[i];
            IsBest(leq, fs, x.finding) && RankIn(leq, fs, x.finding) == Ranks(leq, Ranked(leq, fs))[i]
  {
    hide TotalOrder, Sorted, DedupeKey, RankOf, ScoreAll, Sort, ScoredOf, Before, Kept;
    var xs := Sort(leq, ScoreAll(fs, fs));
    var x := Kept(xs)[i];
    SortSorts(leq, ScoreAll(fs, fs));
    ScoreAllCounts(fs, fs);
    KeptIsSorted(leq, xs);
    KeptIsFirst(leq, xs, i);
    assert x in Kept(xs) && x in multiset(xs);
    assert x.finding in multiset(fs);
    forall g | g in fs && DedupeKey(g) == DedupeKey(x.finding)
      ensures Before(leq, RankIn(leq, fs, x.finding), RankIn(leq, fs, g))
    {
      ScoredOfFinding(g, fs);
      assert g in multiset(fs) && ScoredOf(g, fs) in multiset(xs) && ScoredOf(g, fs) in xs;
      var k :| 0 <= k < |xs| && xs[k] == ScoredOf(g, fs);
      FirstIsBest(leq, xs, k);
    }
  }

  /** `x` stands at `k`, and nothing of its rank before it. */
  ghost predicate IsFirstOfRank(leq: Collation, xs: seq<Scored>, k: nat, x: Scored) {
    k < |xs| && xs[k] == x && forall j :: 0 <= j < k ==> RankOf(leq, xs[j]) != RankOf(leq, x)
  }

  lemma {:induction false} InsertHolds(leq: Collation, xs: seq<Scored>, y: Scored)
    ensures forall z :: z in Insert(leq, xs, y) ==> z in xs || z == y
    decreases |xs|
  {
    hide Before, RankOf;
    if xs != [] {
      InsertHolds(leq, xs[..|xs| - 1], y);
    }
  }

  /** Inserting keeps what was first of its rank ahead of the newcomer. */
  lemma {:induction false} InsertIsStable(leq: Collation, xs: seq<Scored>, y: Scored, k: nat, x: Scored) returns (m: nat)
    requires TotalOrder(leq) && IsFirstOfRank(leq, xs, k, x)
    ensures IsFirstOfRank(leq, Insert(leq, xs, y), m, x)
    decreases |xs|
  {
    BeforeIsTotal(leq, RankOf(leq, x), RankOf(leq, x));
    hide TotalOrder, Before, RankOf;
    var front, last := xs[..|xs| - 1], xs[|xs| - 1];
    m := k;
    if !Before(leq, RankOf(leq, last), RankOf(leq, y)) {
      if k < |front| {
        m := InsertIsStable(leq, front, y, k, x);
      } else {
        InsertHolds(leq, front, y);
        m := |Insert(leq, front, y)|;
        forall j | 0 <= j < m
          ensures RankOf(leq, Insert(leq, front, y)[j]) != RankOf(leq, x)
        {
          assert Insert(leq, front, y)[j] in Insert(leq, front, y);
        }
      }
    }
  }

  /** The sort is stable: the head of the input stays the first of its rank. */
  lemma {:induction false} HeadStaysFirst(leq: Collation, xs: seq<Scored>) returns (k: nat)
    requires TotalOrder(leq) && xs != []
    ensures IsFirstOfRank(leq, Sort(leq, xs), k, xs[0])
    decreases |xs|
  {
    hide TotalOrder, RankOf, Insert, IsFirstOfRank;
    if |xs| == 1 {
      k := SingleIsFirst(leq, xs[0]);
      assert xs[..0] == [] && xs == [xs[0]];
    } else {
      k := HeadStaysFirst(leq, xs[..|xs| - 1]);
      k := InsertIsStable(leq, Sort(leq, xs[..|xs| - 1]), xs[|xs| - 1], k, xs[0]);
    }
  }

  lemma SingleIsFirst(leq: Collation, x: Scored) returns (k: nat)
    ensures IsFirstOfRank(leq, Insert(leq, [], x), k, x)
  {
    k := 0;
  }

  lemma {:induction false} KeptPrefix(xs: seq<Scored>, k: nat)
    requires k <= |xs|
    ensures Kept(xs[..k]) <= Kept(xs)
    decreases |xs|
  {
    hide HasKey, DedupeKey;
    if k < |xs| {
      assert xs[..|xs| - 1][..k] == xs[..k];
      KeptPrefix(xs[..|xs| - 1], k);
    } else {
      assert xs[..k] == xs;
    }
  }

  /** An item that is first of its rank, and the first of its issue, is the first kept one of its rank. */
  lemma KeptIsFirstOfRank(leq: Collation, xs: seq<Scored>, k: nat, x: Scored) returns (m: nat)
    requires TotalOrder(leq) && Sorted(leq, Ranks(leq, xs)) && IsFirstOfRank(leq, xs, k, x)
    requires !HasKey(xs[..k], DedupeKey(x.finding))
    ensures IsFirstOfRank(leq, Kept(xs), m, x)
  {
    hide TotalOrder, DedupeKey, RankOf, Before;
    var front := xs[..k];
    assert xs[..k + 1][..k] == front;
    assert Kept(xs[..k + 1]) == Kept(front) + [x];
    KeptPrefix(xs, k + 1);
    assert Ranks(leq, front) == Ranks(leq, xs)[..k];
    KeptIsSorted(leq, front);
    m := |Kept(front)|;
    forall j | 0 <= j < m
      ensures RankOf(leq, Kept(xs)[j]) != RankOf(leq, x)
    {
      assert Kept(xs)[j] == Kept(front)[j] && Kept(front)[j] in front;
    }
  }

  /** Before the first item of its rank a best finding has none of its issue. */
  lemma BestIsFirstOfIssue(leq: Collation, fs: seq<Finding>, xs: seq<Scored>, k: nat, f: Finding)
    requires TotalOrder(leq) && IsBest(leq, fs, f)
    requires Sorted(leq, Ranks(leq, xs)) && multiset(xs) == multiset(ScoreAll(fs, fs))
    requires IsFirstOfRank(leq, xs, k, ScoredOf(f, fs))
    ensures !HasKey(xs[..k], DedupeKey(f))
  {
    hide TotalOrder, DedupeKey, RankOf, ScoreAll, ScoredOf, Before;
    if HasKey(xs[..k], DedupeKey(f)) {
      var j :| 0 <= j < k && DedupeKey(xs[..k][j].finding) == DedupeKey(f);
      var g := xs[j].finding;
      ScoreAllCounts(fs, fs);
      assert xs[j] in multiset(xs) && g in multiset(fs) && xs[j] == ScoredOf(g, fs);
      assert Before(leq, Ranks(leq, xs)[j], Ranks(leq, xs)[k]);
      BeforeIsTotal(leq, RankIn(leq, fs, f), RankIn(leq, fs, g));
    }
  }

  /** A best finding that comes first in the input is the first of its rank in the ranking. */
  lemma BestHeadIsRanked(leq: Collation, fs: seq<Finding>) returns (m: nat)
    requires TotalOrder(leq) && fs != [] && IsBest(leq, fs, fs[0])
    ensures IsFirstOfRank(leq, Ranked(leq, fs), m, ScoredOf(fs[0], fs))
  {
    hide TotalOrder, Sorted, DedupeKey, RankOf, ScoreAll, Sort, ScoredOf, Before, Kept, IsBest, IsFirstOfRank;
    var all := ScoreAll(fs, fs);
    ScoreAllHead(fs, fs);
    ScoredOfFinding(fs[0], fs);
    SortSorts(leq, all);
    var k := HeadStaysFirst(leq, all);
    BestIsFirstOfIssue(leq, fs, Sort(leq, all), k, fs[0]);
    m := KeptIsFirstOfRank(leq, Sort(leq, all), k, ScoredOf(fs[0], fs));
  }

  lemma {:induction false} ScoreAllHead(fs: seq<Finding>, all: seq<Finding>)
    requires fs != []
    ensures ScoreAll(fs, all) != [] && ScoreAll(fs, all)[0] == ScoredOf(fs[0], all)
    decreases |fs|
  {
    hide ScoredOf;
    if |fs| > 1 {
      ScoreAllHead(fs[..|fs| - 1], all);
    } else {
      assert ScoreAll(fs[..0], all) == [];
    }
  }

  /** The same findings with `f` in front. */
  lemma BringToFront(fs: seq<Finding>, f: Finding) returns (gs: seq<Finding>)
    requires f in fs
    ensures multiset(gs) == multiset(fs) && gs != [] && gs[0] == f
  {
    var k :| 0 <= k < |fs| && fs[k] == f;
    gs := [f] + fs[..k] + fs[k + 1..];
    assert fs == fs[..k] + [f] + fs[k + 1..];
  }

  /** Whichever of two tied findings comes first in the input takes the same place in the ranking. */
  lemma TiesFollowTheInput(leq: Collation, fs: seq<Finding>, f: Finding, g: Finding)
    returns (gs: seq<Finding>, hs: seq<Finding>, i: nat)
    requires TotalOrder(leq) && Tie(leq, fs, f, g)
    ensures multiset(gs) == multiset(fs) && multiset(hs) == multiset(fs)
    ensures i < |Ranked(leq, gs)| && Ranked(leq, gs)[i].finding == f
    ensures i < |Ranked(leq, hs)| && Ranked(leq, hs)[i].finding == g
  {
    gs := BringToFront(fs, f);
    hs := BringToFront(fs, g);
    hide TotalOrder, RankOf, ScoredOf, Ranked, IsBest;
    RankInIsUnordered(leq, fs, gs, f);
    RankInIsUnordered(leq, fs, hs, g);
    i := BestHeadIsRanked(leq, gs);
    var j := BestHeadIsRanked(leq, hs);
    RankingIsUnordered(leq, gs, hs);
    assert Ranks(leq, Ranked(leq, gs))[i] == Ranks(leq, Ranked(leq, hs))[i];
    assert Ranks(leq, Ranked(leq, gs))[j] == Ranks(leq, Ranked(leq, hs))[j];
    assert i == j;
    ScoredOfFinding(f, gs);
    ScoredOfFinding(g, hs);
  }

  function TitlesOf(fs: seq<Finding>): seq<string> {
    seq(|fs|, i requires 0 <= i < |fs| => fs[i].title)
  }

  /** At every place of two rankings of the same findings stand two that tie. */
  lemma PlacesTie(leq: Collation, fs: seq<Finding>, gs: seq<Finding>, i: nat)
    requires TotalOrder(leq) && multiset(fs) == multiset(gs) && i < |Ranked(leq, fs)|
    ensures i < |Ranked(leq, gs)| && Tie(leq, fs, Ranked(leq, fs)[i].finding, Ranked(leq, gs)[i].finding)
  {
    hide TotalOrder, RankOf, Ranked, IsBest, RankIn;
    RankingIsUnordered(leq, fs, gs);
    RankedAreBest(leq, fs, i);
    RankedAreBest(leq, gs, i);
    RankInIsUnordered(leq, fs, gs, Ranked(leq, gs)[i].finding);
  }

  /** Every order of the input gives the same list of titles. */
  ghost predicate TitlesAreFixed(leq: Collation, fs: seq<Finding>) {
    forall gs :: multiset(gs) == multiset(fs) ==>
      TitlesOf(FindingsOf(Ranked(leq, gs))) == TitlesOf(FindingsOf(Ranked(leq, fs)))
  }

  /** Every order of the input gives the same list of findings. */
  ghost predicate RankingIsFixed(leq: Collation, fs: seq<Finding>) {
    forall gs :: multiset(gs) == multiset(fs) ==> FindingsOf(Ranked(leq, gs)) == FindingsOf(Ranked(leq, fs))
  }

  lemma FixedMeansNoTie(leq: Collation, fs: seq<Finding>, f: Finding, g: Finding)
    requires TotalOrder(leq) && Tie(leq, fs, f, g)
    ensures TitlesAreFixed(leq, fs) ==> f.title == g.title
    ensures RankingIsFixed(leq, fs) ==> f == g
  {
    hide TotalOrder, Ranked, Tie;
    var gs, hs, i := TiesFollowTheInput(leq, fs, f, g);
    var rs, qs := FindingsOf(Ranked(leq, gs)), FindingsOf(Ranked(leq, hs));
    assert rs[i] == f && qs[i] == g;
    assert TitlesOf(rs)[i] == f.title && TitlesOf(qs)[i] == g.title;
  }

  lemma NoTieMeansFixed(leq: Collation, fs: seq<Finding>)
    requires TotalOrder(leq)
    ensures (forall f, g :: Tie(leq, fs, f, g) ==> f.title == g.title) ==> TitlesAreFixed(leq, fs)
    ensures (forall f, g :: Tie(leq, fs, f, g) ==> f == g) ==> RankingIsFixed(leq, fs)
  {
    hide TotalOrder, Ranked, Tie;
    forall gs | multiset(gs) == multiset(fs)
      ensures |Ranked(leq, gs)| == |Ranked(leq, fs)|
      ensures forall i :: 0 <= i < |Ranked(leq, fs)| ==>
                Tie(leq, fs, Ranked(leq, fs)[i].finding, Ranked(leq, gs)[i].finding)
    {
      RankingIsUnordered(leq, fs, gs);
      forall i: nat | i < |Ranked(leq, fs)|
        ensures Tie(leq, fs, Ranked(leq, fs)[i].finding, Ranked(leq, gs)[i].finding)
      {
        PlacesTie(leq, fs, gs, i);
      }
    }
  }

  /**
   Every order of the input gives the same list of titles exactly if no two findings that are best
   of their issues tie with different titles, and the same list of findings exactly if no two
   different findings do.
   */
  lemma RankingIsFixedIff(leq: Collation, fs: seq<Finding>)
    requires TotalOrder(leq)
    ensures TitlesAreFixed(leq, fs) <==> forall f, g :: Tie(leq, fs, f, g) ==> f.title == g.title
    ensures RankingIsFixed(leq, fs) <==> forall f, g :: Tie(leq, fs, f, g) ==> f == g
  {
    hide TotalOrder, Tie, TitlesAreFixed, RankingIsFixed;
    NoTieMeansFixed(leq, fs);
    forall f, g | Tie(leq, fs, f, g)
      ensures TitlesAreFixed(leq, fs) ==> f.title == g.title
      ensures RankingIsFixed(leq, fs) ==> f == g
    {
      FixedMeansNoTie(leq, fs, f, g);
    }
  }

  /** Two findings that tie on everything but the spelling of their titles keep the order of the input. */
  lemma SpellingKeepsInputOrder(leq: Collation, f: Finding, g: Finding)
    requires TotalOrder(leq) && f == g.(title := f.title) && f.title != g.title && f.internalKey == None
    requires leq.weight(f.title) == leq.weight(g.title)
    ensures var r, q := Ranked(leq, [f, g]), Ranked(leq, [g, f]);
            |r| == 2 && |q| == 2 && r[0].finding == f && r[1].finding == g && q[0].finding == g && q[1].finding == f
  {
    KeepsInputOrder(leq, f, g);
    KeepsInputOrder(leq, g, f);
  }

  lemma KeepsInputOrder(leq: Collation, f: Finding, g: Finding)
    requires TotalOrder(leq) && f == g.(title := f.title) && f.title != g.title && f.internalKey == None
    requires leq.weight(f.title) == leq.weight(g.title)
    ensures var r := Ranked(leq, [f, g]);
            |r| == 2 && r[0].finding == f && r[1].finding == g
  {
    var fs := [f, g];
    var x, y := ScoredOf(f, fs), ScoredOf(g, fs);
    ScoreTwo(f, g, fs);
    SortTwo(leq, x, y);
    KeysDiffer(f, g);
    hide ScoredOf, ScoreAll, Sort, Kept, DedupeKey, Before;
    ScoredOfFinding(f, fs);
    ScoredOfFinding(g, fs);
    KeptTwo(x, y);
  }

  lemma ScoreTwo(f: Finding, g: Finding, fs: seq<Finding>)
    ensures ScoreAll([f, g], fs) == [ScoredOf(f, fs), ScoredOf(g, fs)]
  {
    hide ScoredOf;
    assert [f, g][..1] == [f] && [f][..0] == [];
    assert ScoreAll([f], fs) == [] + [ScoredOf(f, fs)];
  }

  lemma SortTwo(leq: Collation, x: Scored, y: Scored)
    requires Before(leq, RankOf(leq, x), RankOf(leq, y))
    ensures Sort(leq, [x, y]) == [x, y]
  {
    hide Before, RankOf;
    assert [x, y][..1] == [x] && [x][..0] == [];
    assert Sort(leq, [x]) == [x];
  }

  lemma KeptTwo(x: Scored, y: Scored)
    requires DedupeKey(x.finding) != DedupeKey(y.finding)
    ensures Kept([x, y]) == [x, y]
  {
    hide DedupeKey;
    assert [x, y][..1] == [x] && [x][..0] == [];
    assert !HasKey([], DedupeKey(x.finding)) && !HasKey([x], DedupeKey(y.finding));
    assert Kept([x]) == [] + [x];
  }

  lemma KeysDiffer(f: Finding, g: Finding)
    requires f.internalKey == None && g.internalKey == None && f.ruleId == g.ruleId && f.title != g.title
    ensures DedupeKey(f) != DedupeKey(g)
  {
    assert (f.ruleId + "_" + f.title)[|f.ruleId| + 1..] == f.title;
    assert (g.ruleId + "_" + g.title)[|g.ruleId| + 1..] == g.title;
  }

  // ---- sorted, distinct, and covering ----

  lemma {:induction false} KeptIsDistinct(xs: seq<Scored>)
    ensures forall k :: HasKey(Kept(xs), k) <==> HasKey(xs, k)
    ensures forall i, j :: 0 <= i < j < |Kept(xs)| ==> DedupeKey(Kept(xs)[i].finding) != DedupeKey(Kept(xs)[j].finding)
    decreases |xs|
  {
    hide DedupeKey;
    if xs != [] {
      var front, x := xs[..|xs| - 1], xs[|xs| - 1];
      assert xs == front + [x];
      KeptIsDistinct(front);
      HasKeyAppend(front, x);
      HasKeyAppend(Kept(front), x);
      if !HasKey(front, DedupeKey(x.finding)) {
        var ks := Kept(front);
        forall i | 0 <= i < |ks|
          ensures DedupeKey(ks[i].finding) != DedupeKey(x.finding)
        {
          assert HasKey(ks, DedupeKey(ks[i].finding));
        }
      }
    }
  }

  lemma {:induction false} KeptIsFirst(leq: Collation, xs: seq<Scored>, i: nat)
    requires i < |Kept(xs)|
    ensures HasKey(xs, DedupeKey(Kept(xs)[i].finding))
    ensures RankOf(leq, Kept(xs)[i]) == FirstRank(leq, xs, DedupeKey(Kept(xs)[i].finding))
    decreases |xs|
  {
    hide DedupeKey, RankOf;
    var front, x := xs[..|xs| - 1], xs[|xs| - 1];
    assert xs == front + [x];
    HasKeyAppend(front, x);
    if i < |Kept(front)| {
      KeptIsFirst(leq, front, i);
    }
  }

  /** The ranking is sorted, names no issue twice, and represents every finding by one that ranks no worse. */
  lemma RankingIsSortedAndCovers(leq: Collation, fs: seq<Finding>, f: Finding)
    requires TotalOrder(leq) && f in fs
    ensures var r := Ranked(leq, fs);
            && Sorted(leq, Ranks(leq, r))
            && (forall i, j :: 0 <= i < j < |r| ==> DedupeKey(r[i].finding) != DedupeKey(r[j].finding))
            && exists i :: 0 <= i < |r| && DedupeKey(r[i].finding) == DedupeKey(f)
                 && Before(leq, RankOf(leq, r[i]), RankOf(leq, ScoredOf(f, fs)))
  {
    hide TotalOrder, Sorted, DedupeKey, RankOf, ScoreAll, Sort, ScoredOf, Before;
    var all := ScoreAll(fs, fs);
    var xs, x := Sort(leq, all), ScoredOf(f, fs);
    ScoredOfFinding(f, fs);
    ScoreAllCounts(fs, fs);
    SortSorts(leq, all);
    assert f in multiset(fs) && x in multiset(all) && x in multiset(xs) && x in xs;
    KeptIsSorted(leq, xs);
    KeptIsDistinct(xs);
    var k :| 0 <= k < |xs| && xs[k] == x;
    FirstIsBest(leq, xs, k);
    assert HasKey(Kept(xs), DedupeKey(f));
    var i :| 0 <= i < |Kept(xs)| && DedupeKey(Kept(xs)[i].finding) == DedupeKey(f);
    KeptIsFirst(leq, xs, i);
  }

  // ---- which way the ranking runs ----

  function Urgency(fs: seq<Finding>, f: Finding): int {
    PriorityScore(f, Frequency(fs, FrequencyKey(f)))
  }

  /** What stands before another item: a higher score, or else a higher impact, or else the lower rule, or else the lower title. */
  lemma EarlierIsMoreUrgent(leq: Collation, fs: seq<Finding>, i: nat, j: nat)
    requires TotalOrder(leq) && i < j < |Ranked(leq, fs)|
    ensures var x, y := Ranked(leq, fs)[i], Ranked(leq, fs)[j];
            var f, g := x.finding, y.finding;
            && x.priorityScore == Urgency(fs, f) && y.priorityScore == Urgency(fs, g)
            && x.priorityScore >= y.priorityScore
            && (x.priorityScore == y.priorityScore ==> f.scoreImpact >= g.scoreImpact)
            && (x.priorityScore == y.priorityScore && f.scoreImpact == g.scoreImpact ==>
                  leq.atMost(leq.weight(f.ruleId), leq.weight(g.ruleId)))
            && (x.priorityScore == y.priorityScore && f.scoreImpact == g.scoreImpact
                && leq.weight(f.ruleId) == leq.weight(g.ruleId) ==>
                  leq.atMost(leq.weight(f.title), leq.weight(g.title)))
            && DedupeKey(f) != DedupeKey(g)
  {
    RankedIsOrdered(leq, fs, i, j);
    RankedScore(leq, fs, i);
    RankedScore(leq, fs, j);
    hide Ranked, TotalOrder, PriorityScore;
    BeforeMeans(leq, Ranked(leq, fs)[i], Ranked(leq, fs)[j]);
  }

  lemma BeforeMeans(leq: Collation, x: Scored, y: Scored)
    requires TotalOrder(leq) && Before(leq, RankOf(leq, x), RankOf(leq, y))
    ensures var f, g := x.finding, y.finding;
            && x.priorityScore >= y.priorityScore
            && (x.priorityScore == y.priorityScore ==> f.scoreImpact >= g.scoreImpact)
            && (x.priorityScore == y.priorityScore && f.scoreImpact == g.scoreImpact ==>
                  leq.atMost(leq.weight(f.ruleId), leq.weight(g.ruleId)))
            && (x.priorityScore == y.priorityScore && f.scoreImpact == g.scoreImpact
                && leq.weight(f.ruleId) == leq.weight(g.ruleId) ==>
                  leq.atMost(leq.weight(f.title), leq.weight(g.title)))
  {
  }

  lemma RankedIsOrdered(leq: Collation, fs: seq<Finding>, i: nat, j: nat)
    requires TotalOrder(leq) && i < j < |Ranked(leq, fs)|
    ensures var x, y := Ranked(leq, fs)[i], Ranked(leq, fs)[j];
            Before(leq, RankOf(leq, x), RankOf(leq, y)) && DedupeKey(x.finding) != DedupeKey(y.finding)
  {
    hide TotalOrder, Before, RankOf, DedupeKey, ScoreAll, Sort, Kept;
    var xs := Sort(leq, ScoreAll(fs, fs));
    SortSorts(leq, ScoreAll(fs, fs));
    KeptIsSorted(leq, xs);
    KeptIsDistinct(xs);
    var rs := Ranks(leq, Kept(xs));
    assert Before(leq, rs[i], rs[j]);
  }

  lemma RankedScore(leq: Collation, fs: seq<Finding>, i: nat)
    requires TotalOrder(leq) && i < |Ranked(leq, fs)|
    ensures var x := Ranked(leq, fs)[i];
            x.priorityScore == Urgency(fs, x.finding) && x.finding in fs
  {
    hide TotalOrder, Before, RankOf, DedupeKey, ScoreAll, Sort, Kept, PriorityScore, Frequency, FrequencyKey;
    var xs := Sort(leq, ScoreAll(fs, fs));
    var x := Kept(xs)[i];
    SortSorts(leq, ScoreAll(fs, fs));
    KeptIsSorted(leq, xs);
    assert x in Kept(xs) && x in multiset(xs);
    ScoreAllCounts(fs, fs);
    assert x.finding in multiset(fs);
  }

  /** Every finding is represented by one of its issue that is at least as urgent. */
  lemma NoneMoreUrgentIsDropped(leq: Collation, fs: seq<Finding>, f: Finding) returns (i: nat)
    requires TotalOrder(leq) && f in fs
    ensures i < |Ranked(leq, fs)| && DedupeKey(Ranked(leq, fs)[i].finding) == DedupeKey(f)
    ensures Ranked(leq, fs)[i].priorityScore >= Urgency(fs, f)
  {
    RankingIsSortedAndCovers(leq, fs, f);
    hide TotalOrder, Ranked, DedupeKey, PriorityScore;
    i :| 0 <= i < |Ranked(leq, fs)| && DedupeKey(Ranked(leq, fs)[i].finding) == DedupeKey(f)
         && Before(leq, RankOf(leq, Ranked(leq, fs)[i]), RankOf(leq, ScoredOf(f, fs)));
  }

  lemma RankingIsUrgent(leq: Collation, fs: seq<Finding>, r: seq<Finding>)
    requires TotalOrder(leq) && r == FindingsOf(Ranked(leq, fs))
    ensures forall i, j :: 0 <= i < j < |r| ==>
              Urgency(fs, r[i]) >= Urgency(fs, r[j]) && DedupeKey(r[i]) != DedupeKey(r[j])
    ensures forall f :: f in fs ==>
              exists i :: 0 <= i < |r| && DedupeKey(r[i]) == DedupeKey(f) && Urgency(fs, r[i]) >= Urgency(fs, f)
    ensures forall f :: f in r ==> f in fs
  {
    hide TotalOrder, Ranked, DedupeKey, Urgency;
    forall i, j | 0 <= i < j < |r|
      ensures Urgency(fs, r[i]) >= Urgency(fs, r[j]) && DedupeKey(r[i]) != DedupeKey(r[j])
    {
      EarlierIsMoreUrgent(leq, fs, i, j);
    }
    forall i | 0 <= i < |r|
      ensures r[i] in fs && Ranked(leq, fs)[i].priorityScore == Urgency(fs, r[i])
    {
      RankedScore(leq, fs, i);
    }
    forall f | f in fs
      ensures exists i :: 0 <= i < |r| && DedupeKey(r[i]) == DedupeKey(f) && Urgency(fs, r[i]) >= Urgency(fs, f)
    {
      var i := NoneMoreUrgentIsDropped(leq, fs, f);
      assert DedupeKey(r[i]) == DedupeKey(f) && Urgency(fs, r[i]) >= Urgency(fs, f);
    }
  }

  /**
   Which findings are one issue: with internal keys those with the same one; without, and of one
   rule, those with the same title. They count as repetitions of one another if they share the
   internal key, or without keys the rule.
   */
  lemma IssuesAreTold(f: Finding, g: Finding)
    ensures f.internalKey.Some? && g.internalKey.Some? ==>
              && (DedupeKey(f) == DedupeKey(g) <==> f.internalKey == g.internalKey)
              && (FrequencyKey(f) == FrequencyKey(g) <==> f.internalKey == g.internalKey)
    ensures f.internalKey.None? && g.internalKey.None? ==>
              && (f.ruleId == g.ruleId ==> (DedupeKey(f) == DedupeKey(g) <==> f.title == g.title))
              && (FrequencyKey(f) == FrequencyKey(g) <==> f.ruleId == g.ruleId)
  {
    if f.internalKey.None? && g.internalKey.None? && f.ruleId == g.ruleId && f.title != g.title {
      KeysDiffer(f, g);
    }
  }

  function Level(s: Severity): nat {
    match s
    case Critical => 4
    case High => 3
    case Medium => 2
    case Low => 1
    case Info => 0
  }

  /**
   What makes a finding more urgent, other things being equal: a higher severity, by ten points at
   least; a point of impact, by two; a scope beyond one page, by ten; up to the seventh occurrence
   of its issue another one, by two at least; and a lead issue against a security issue, and that
   against any other, by five.
   */
  lemma UrgencyGrows(f: Finding, g: Finding, n: nat)
    ensures g == f.(severity := g.severity) && Level(g.severity) < Level(f.severity) ==>
              PriorityScore(f, n) >= PriorityScore(g, n) + 10
    ensures g == f.(scoreImpact := g.scoreImpact) ==>
              PriorityScore(f, n) - PriorityScore(g, n) == 2 * (f.scoreImpact - g.scoreImpact)
    ensures g == f.(scope := PageScope) && f.scope != PageScope ==> PriorityScore(f, n) == PriorityScore(g, n) + 10
    ensures g == f.(category := g.category) ==>
              && (f.category == Lead && g.category == Security ==> PriorityScore(f, n) == PriorityScore(g, n) + 5)
              && (f.category == Security && (g.category == Seo || g.category == Advertising) ==>
                    PriorityScore(f, n) == PriorityScore(g, n) + 5)
    ensures n < 7 ==> PriorityScore(f, n + 1) >= PriorityScore(f, n) + 2
    ensures n >= 7 ==> PriorityScore(f, n) == PriorityScore(f, 7)
    ensures f.severity == Info && f.category == Seo && f.scope == PageScope ==> PriorityScore(f, 0) == 15 + 2 * f.scoreImpact
    ensures f.severity == Critical && f.category == Lead && f.scope == AuditScope ==>
              PriorityScore(f, 7) == 155 + 2 * f.scoreImpact
  {
  }
}
