/**
 Scans and manual changes of one website that overlap. Every statement is atomic, but a retest
 reads the live rows in one statement and updates them by identifier in two later ones. A scan
 that crashes is one that takes no further step.
 */
module VaultOverlap {
  import opened Findings
  import opened Vault

  /** What a retest that has read the rows is still going to write. */
  datatype Stale = Stale(toFix: set<RowKey>, toVerify: set<RowKey>)

  datatype State = State(rows: Table, pending: map<nat, Stale>)

  datatype Event =
    | Insert(findings: seq<Finding>)
    | Reopen(findings: seq<Finding>)
    | Read(scan: nat, findings: seq<Finding>)
    | WriteFixed(scan: nat)
    | WriteVerified(scan: nat)
    | Change(row: RowKey, status: Status)

  predicate CanHappen(s: State, e: Event) {
    match e
    case Insert(_) => true
    case Reopen(_) => true
    case Read(scan, _) => scan !in s.pending
    case WriteFixed(scan) => scan in s.pending
    case WriteVerified(scan) => scan in s.pending && s.pending[scan].toFix == {}
    case Change(row, status) => row in s.rows && (status == Triaged || status == VerifiedIgnored)
  }

  function Next(s: State, e: Event): State
    requires CanHappen(s, e)
  {
    match e
    case Insert(fs) => s.(rows := Inserted(s.rows, fs))
    case Reopen(fs) => s.(rows := Reopened(s.rows, fs))
    case Read(scan, fs) =>
      s.(pending := s.pending[scan := Stale(ToFix(s.rows, Issues(fs)), ToVerify(s.rows, Issues(fs)))])
    case WriteFixed(scan) =>
      State(Updated(s.rows, s.pending[scan].toFix, Fixed), s.pending[scan := s.pending[scan].(toFix := {})])
    case WriteVerified(scan) =>
      State(Updated(s.rows, s.pending[scan].toVerify, Verified), s.pending - {scan})
    case Change(row, status) => s.(rows := s.rows[row := status])
  }

  /** A retest's write is about to hit the row. */
  predicate Hits(s: State, e: Event, r: RowKey)
    requires CanHappen(s, e)
  {
    || (e.WriteFixed? && r in s.pending[e.scan].toFix)
    || (e.WriteVerified? && r in s.pending[e.scan].toVerify)
  }

  /** An ignored row stops being ignored exactly if it is triaged, or if a retest writes it that read it before. */
  lemma IgnoredRowLeaves(s: State, e: Event, r: RowKey)
    requires CanHappen(s, e) && r in s.rows && s.rows[r] == VerifiedIgnored
    ensures r in Next(s, e).rows
    ensures Next(s, e).rows[r] != VerifiedIgnored <==> e == Change(r, Triaged) || Hits(s, e, r)
  {
  }

  ghost predicate Unread(s: State, r: RowKey) {
    forall scan :: scan in s.pending ==> r !in s.pending[scan].toFix && r !in s.pending[scan].toVerify
  }

  predicate Runs(s: State, es: seq<Event>)
    decreases |es|
  {
    es == [] || (CanHappen(s, es[0]) && Runs(Next(s, es[0]), es[1..]))
  }

  function After(s: State, es: seq<Event>): State
    requires Runs(s, es)
    decreases |es|
  {
    if es == [] then s else After(Next(s, es[0]), es[1..])
  }

  /**
   A row ignored while no retest stands between reading and writing it stays ignored through
   every run of scans and changes, until someone triages it.
   */
  lemma {:induction false} IgnoredStays(s: State, es: seq<Event>, r: RowKey)
    requires Runs(s, es) && Change(r, Triaged) !in es
    requires r in s.rows && s.rows[r] == VerifiedIgnored && Unread(s, r)
    ensures r in After(s, es).rows && After(s, es).rows[r] == VerifiedIgnored && Unread(After(s, es), r)
    decreases |es|
  {
    if es != [] {
      IgnoredRowLeaves(s, es[0], r);
      hide IsLive, Inserted, Reopened, Updated;
      StaysUnread(s, es[0], r);
      hide Next, CanHappen, Unread, Hits;
      IgnoredStays(Next(s, es[0]), es[1..], r);
    }
  }

  lemma StaysUnread(s: State, e: Event, r: RowKey)
    requires CanHappen(s, e) && r in s.rows && s.rows[r] == VerifiedIgnored && Unread(s, r)
    ensures Unread(Next(s, e), r) && !Hits(s, e, r)
  {
  }

  /** If some retest has read the row, a run without a triage takes it out of the ignored state. */
  lemma ReadRowsGetLost(s: State, r: RowKey) returns (es: seq<Event>)
    requires r in s.rows && s.rows[r] == VerifiedIgnored && !Unread(s, r)
    ensures Runs(s, es) && Change(r, Triaged) !in es && r in After(s, es).rows && After(s, es).rows[r] != VerifiedIgnored
  {
    var scan :| scan in s.pending && (r in s.pending[scan].toFix || r in s.pending[scan].toVerify);
    var t := Next(s, WriteFixed(scan));
    if r in s.pending[scan].toFix {
      es := [WriteFixed(scan)];
      assert Runs(t, []) && After(t, []) == t;
    } else {
      es := [WriteFixed(scan), WriteVerified(scan)];
      var u := Next(t, WriteVerified(scan));
      assert es[1..] == [WriteVerified(scan)] && es[1..][1..] == [];
      assert Runs(u, []) && After(u, []) == u;
      assert Runs(t, es[1..]) && After(t, es[1..]) == u;
    }
  }

  /** The row is ignored at the end of the run, if that is one and triages nothing. */
  ghost predicate SafeThrough(s: State, es: seq<Event>, r: RowKey) {
    Runs(s, es) && Change(r, Triaged) !in es ==> r in After(s, es).rows && After(s, es).rows[r] == VerifiedIgnored
  }

  /** The exact condition: an ignored row is safe from everything but a triage exactly if no retest has it read. */
  lemma IgnoredIsSafeIff(s: State, r: RowKey)
    requires r in s.rows && s.rows[r] == VerifiedIgnored
    ensures Unread(s, r) <==> forall es :: SafeThrough(s, es, r)
  {
    hide Unread;
    if Unread(s, r) {
      forall es
        ensures SafeThrough(s, es, r)
      {
        if Runs(s, es) && Change(r, Triaged) !in es {
          IgnoredStays(s, es, r);
        }
      }
    } else {
      var es := ReadRowsGetLost(s, r);
      assert !SafeThrough(s, es, r);
    }
  }

  /** Ignored in that gap, the row is overwritten: nobody triages it, and the retest marks it fixed. */
  lemma OverlapUnignores(f: Finding)
    ensures var s := State(map[RowOf(f) := Open], map[]);
            var es := [Read(0, []), Change(RowOf(f), VerifiedIgnored), WriteFixed(0)];
            Runs(s, es) && After(s, es).rows == map[RowOf(f) := Fixed]
  {
    var r := RowOf(f);
    var s0 := State(map[r := Open], map[]);
    assert ToFix(s0.rows, Issues([])) == {r};
    var s1 := Next(s0, Read(0, []));
    var s2 := Next(s1, Change(r, VerifiedIgnored));
    var s3 := Next(s2, WriteFixed(0));
    assert s3.rows == map[r := Fixed];
    var es := [Read(0, []), Change(r, VerifiedIgnored), WriteFixed(0)];
    assert es[1..] == [Change(r, VerifiedIgnored), WriteFixed(0)] && es[1..][1..] == [WriteFixed(0)];
    assert Runs(s2, [WriteFixed(0)]) && After(s2, [WriteFixed(0)]) == s3;
  }
}
