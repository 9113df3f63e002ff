/** The vault score: every issue costs its worst finding's impact, once. */
module VaultScore {
  import opened Findings
  import opened Vault

  function Max(a: int, b: int): int {
    if a < b then b else a
  }

  /** The worst impact an issue was reported with; zero if there is no report or none above zero. */
  function Worst(fs: seq<Finding>, key: string): nat
    decreases |fs|
  {
    if fs == [] then 0
    else
      var worst, f := Worst(fs[..|fs| - 1], key), fs[|fs| - 1];
      if IssueKey(f) == key then Max(worst, f.scoreImpact) else worst
  }

  function Sum(fs: seq<Finding>, keys: seq<string>): nat
    decreases |keys|
  {
    if keys == [] then 0 else Sum(fs, keys[..|keys| - 1]) + Worst(fs, keys[|keys| - 1])
  }

  /** The issues in the order in which they first occur. */
  function IssueList(fs: seq<Finding>): seq<string>
    decreases |fs|
  {
    if fs == [] then []
    else
      var keys, k := IssueList(fs[..|fs| - 1]), IssueKey(fs[|fs| - 1]);
      if k in keys then keys else keys + [k]
  }

  function Penalty(fs: seq<Finding>): nat {
    Sum(fs, IssueList(fs))
  }

  function Score(penalty: int): int {
    Max(0, if 100 < 100 - penalty then 100 else 100 - penalty)
  }

  lemma {:induction false} ListFacts(fs: seq<Finding>)
    ensures forall k :: k in IssueList(fs) <==> k in Issues(fs)
    ensures forall i, j :: 0 <= i < j < |IssueList(fs)| ==> IssueList(fs)[i] != IssueList(fs)[j]
    ensures forall k :: k !in Issues(fs) ==> Worst(fs, k) == 0
    decreases |fs|
  {
    if fs != [] {
      var front, last := fs[..|fs| - 1], fs[|fs| - 1];
      ListFacts(front);
      assert fs == front + [last];
      assert Issues(fs) == Issues(front) + {IssueKey(last)};
    }
  }

  /** One more finding moves the sum by what it adds to its own issue's worst impact. */
  lemma {:induction false} SumSnoc(front: seq<Finding>, f: Finding, keys: seq<string>)
    requires forall i, j :: 0 <= i < j < |keys| ==> keys[i] != keys[j]
    ensures Sum(front + [f], keys) == Sum(front, keys) +
              if IssueKey(f) in keys then Max(0, f.scoreImpact - Worst(front, IssueKey(f))) else 0
    decreases |keys|
  {
    hide Worst, IssueKey;
    if keys != [] {
      var ks, k := keys[..|keys| - 1], keys[|keys| - 1];
      assert keys == ks + [k];
      SumSnoc(front, f, ks);
      WorstSnoc(front, f, k);
    }
  }

  lemma WorstSnoc(front: seq<Finding>, f: Finding, k: string)
    ensures Worst(front + [f], k) == Worst(front, k) + if IssueKey(f) == k then Max(0, f.scoreImpact - Worst(front, k)) else 0
  {
    hide IssueKey;
    assert (front + [f])[..|front|] == front;
  }

  /**
   A further finding costs exactly what it adds to the worst finding of its issue: nothing for a
   repetition or a milder report, and never less than nothing.
   */
  lemma OnlyTheWorstCounts(fs: seq<Finding>, f: Finding)
    ensures Penalty(fs + [f]) == Penalty(fs) + Max(0, f.scoreImpact - Worst(fs, IssueKey(f)))
  {
    var all := fs + [f];
    assert all[..|fs|] == fs;
    ListFacts(fs);
    ListFacts(all);
    SumSnoc(fs, f, IssueList(all));
    if IssueKey(f) !in IssueList(fs) {
      assert IssueList(all)[..|IssueList(all)| - 1] == IssueList(fs);
    }
  }

  lemma MoreFindingsScoreNoBetter(fs: seq<Finding>, f: Finding)
    ensures 0 <= Score(Penalty(fs + [f])) <= Score(Penalty(fs)) <= 100
  {
    hide Penalty, Worst;
    OnlyTheWorstCounts(fs, f);
  }

  /** No finding of the issue is worse than that, and one is as bad unless none has an impact. */
  lemma {:induction false} WorstIsWorst(fs: seq<Finding>, key: string)
    ensures forall f :: f in fs && IssueKey(f) == key ==> f.scoreImpact <= Worst(fs, key)
    ensures Worst(fs, key) > 0 ==> exists f :: f in fs && IssueKey(f) == key && f.scoreImpact == Worst(fs, key)
    decreases |fs|
  {
    hide IssueKey;
    if fs != [] {
      var front, last := fs[..|fs| - 1], fs[|fs| - 1];
      assert fs == front + [last];
      WorstIsWorst(front, key);
    }
  }

  /**
   In points: no findings score a hundred, and a further finding takes off as many points as its
   impact exceeds the worst of its issue, or all that are left.
   */
  lemma ScoreInPoints(fs: seq<Finding>, f: Finding)
    ensures Score(Penalty([])) == 100
    ensures var lost := Max(0, f.scoreImpact - Worst(fs, IssueKey(f)));
            var before, after := Score(Penalty(fs)), Score(Penalty(fs + [f]));
            after == if lost <= before then before - lost else 0
  {
    hide Penalty, Worst;
    OnlyTheWorstCounts(fs, f);
    NoPenalty();
  }

  lemma NoPenalty()
    ensures Penalty([]) == 0
  {
  }

  method ComputeVaultScore(fs: seq<Finding>) returns (score: int)
    ensures score == Score(Penalty(fs)) && 0 <= score <= 100
  {
    hide IssueKey;
    var keys: seq<string>, byKey: map<string, int> := [], map[];
    for i := 0 to |fs|
      invariant keys == IssueList(fs[..i])
      invariant forall k :: k in byKey <==> k in keys
      invariant forall k :: k in byKey ==> byKey[k] == Worst(fs[..i], k)
    {
      assert fs[..i + 1][..i] == fs[..i];
      ListFacts(fs[..i]);
      var key := IssueKey(fs[i]);
      if key in byKey {
        byKey := byKey[key := Max(byKey[key], fs[i].scoreImpact)];
      } else {
        byKey := byKey[key := Max(0, fs[i].scoreImpact)];
        keys := keys + [key];
      }
    }
    assert fs[..|fs|] == fs;
    var penalty := 0;
    for i := 0 to |keys|
      invariant penalty == Sum(fs, keys[..i])
    {
      assert keys[..i + 1][..i] == keys[..i];
      penalty := penalty + byKey[keys[i]];
    }
    assert keys[..|keys|] == keys;
    score := Max(0, if 100 < 100 - penalty then 100 else 100 - penalty);
  }
}
