/** The vault worker: one scan's statements on the finding table, and the scan's score. */
module VaultScan {
  import opened Findings
  import opened Vault

  predicate NoDuplicates<T(==)>(s: seq<T>) {
    forall i, j :: 0 <= i < j < |s| ==> s[i] != s[j]
  }

  lemma {:induction false} DistinctSize<T>(s: seq<T>)
    requires NoDuplicates(s)
    ensures |set x | x in s| == |s|
    decreases |s|
  {
    if s != [] {
      var front, last := s[..|s| - 1], s[|s| - 1];
      DistinctSize(front);
      assert s == front + [last];
      assert (set x | x in s) == (set x | x in front) + {last};
    }
  }

  /** The retest's partition of the rows it read into those it fixes and those it verifies. */
  method ClassifyRetestTransitions(t: Table, live: seq<RowKey>, detected: set<string>)
    returns (toFix: seq<RowKey>, toVerify: seq<RowKey>)
    requires forall k :: k in live ==> k in t
    ensures forall k :: k in toFix <==> k in live && k.issueKey !in detected && t[k] != Fixed
    ensures forall k :: k in toVerify <==> k in live && k.issueKey !in detected && t[k] == Fixed
    ensures NoDuplicates(live) ==> NoDuplicates(toFix) && NoDuplicates(toVerify)
  {
    toFix, toVerify := [], [];
    for i := 0 to |live|
      invariant forall k :: k in toFix <==> k in live[..i] && k.issueKey !in detected && t[k] != Fixed
      invariant forall k :: k in toVerify <==> k in live[..i] && k.issueKey !in detected && t[k] == Fixed
      invariant NoDuplicates(live) ==> NoDuplicates(toFix) && NoDuplicates(toVerify)
    {
      assert live[..i + 1] == live[..i] + [live[i]];
      if live[i].issueKey !in detected {
        if t[live[i]] != Fixed {
          toFix := toFix + [live[i]];
        } else {
          toVerify := toVerify + [live[i]];
        }
      }
    }
    assert live[..|live|] == live;
  }

  /** The rows a retest moves are those whose status it changes, and there is no other change. */
  lemma MovedRows(u: Table, detected: set<string>)
    ensures var t := Updated(Updated(u, ToFix(u, detected), Fixed), ToVerify(u, detected), Verified);
            && t.Keys == u.Keys
            && ToFix(u, detected) == (set k | k in u && t[k] == Fixed && u[k] != Fixed)
            && ToVerify(u, detected) == (set k | k in u && t[k] == Verified && u[k] != Verified)
            && forall k :: k in u && k !in ToFix(u, detected) + ToVerify(u, detected) ==> t[k] == u[k]
  {
  }

  class FindingTable {
    var rows: Table

    constructor ()
      ensures rows == map[]
    {
      rows := map[];
    }

    method CreateMany(fs: seq<Finding>)
      modifies this
      ensures rows == Inserted(old(rows), fs)
    {
      rows := rows + map k | k in Rows(fs) - rows.Keys :: Open;
    }

    method UpsertVaultFindings(fs: seq<Finding>) returns (n: nat)
      modifies this
      ensures rows == Reopened(Inserted(old(rows), fs), fs) && n == |fs|
    {
      if |fs| == 0 {
        assert Reopened(Inserted(rows, fs), fs) == rows;
        return 0;
      }
      CreateMany(fs);
      var issues := set f | f in fs :: IssueKey(f);
      rows := map k | k in rows ::
        if k.issueKey in issues && rows[k] != VerifiedIgnored && rows[k] != Open then Open else rows[k];
      n := |fs|;
    }

    method FindLive() returns (live: seq<RowKey>)
      ensures forall k :: k in live <==> k in rows && IsLive(rows[k])
      ensures NoDuplicates(live)
    {
      live := [];
      var left := set k | k in rows && IsLive(rows[k]);
      while left != {}
        invariant forall k :: k in live || k in left <==> k in rows && IsLive(rows[k])
        invariant NoDuplicates(live) && forall k :: k in live ==> k !in left
        decreases |left|
      {
        var k :| k in left;
        left := left - {k};
        live := live + [k];
      }
    }

    method UpdateMany(ids: seq<RowKey>, s: Status)
      modifies this
      ensures rows == Updated(old(rows), (set k | k in ids), s)
    {
      rows := map k | k in rows :: if k in ids then s else rows[k];
    }

    method Retest(detected: set<string>) returns (fixed: nat, verified: nat)
      modifies this
      ensures rows == Updated(Updated(old(rows), ToFix(old(rows), detected), Fixed),
                              ToVerify(old(rows), detected), Verified)
      ensures fixed == |ToFix(old(rows), detected)| && verified == |ToVerify(old(rows), detected)|
    {
      fixed, verified := 0, 0;
      var live := FindLive();
      var toFix, toVerify := ClassifyRetestTransitions(rows, live, detected);
      DistinctSize(toFix);
      DistinctSize(toVerify);
      assert (set k | k in toFix) == ToFix(rows, detected);
      assert (set k | k in toVerify) == ToVerify(rows, detected);
      hide ToFix, ToVerify, NoDuplicates;
      if |toFix| > 0 {
        UpdateMany(toFix, Fixed);
        fixed := |toFix|;
      } else {
        assert Updated(rows, (set k | k in toFix), Fixed) == rows;
      }
      if |toVerify| > 0 {
        UpdateMany(toVerify, Verified);
        verified := |toVerify|;
      } else {
        assert Updated(rows, (set k | k in toVerify), Verified) == rows;
      }
    }

    /** A scan by itself is the lifecycle's whole step; it reports how many rows it fixed and verified. */
    method ProcessScan(retest: bool, fs: seq<Finding>) returns (fixed: nat, verified: nat)
      modifies this
      ensures rows == Apply(old(rows), Scan(retest, fs))
      ensures var u := Reopened(Inserted(old(rows), fs), fs);
              && fixed == |if retest then ToFix(u, Issues(fs)) else {}|
              && verified == |if retest then ToVerify(u, Issues(fs)) else {}|
    {
      hide Inserted, Reopened, Updated, ToFix, ToVerify;
      var _ := UpsertVaultFindings(fs);
      fixed, verified := 0, 0;
      if retest {
        fixed, verified := Retest(Issues(fs));
      }
    }
  }
}
