/**
 The lifecycle of security findings: scans insert and reopen rows, retests close them, people
 triage or ignore them. The main theorem reads a row's status off the whole history.
 */
module Vault {
  import opened Options
  import opened Findings

  datatype Status = Open | Triaged | Fixed | Verified | VerifiedIgnored

  /** The unique key of a website's findings. */
  datatype RowKey = RowKey(scannerKey: string, issueKey: string)

  type Table = map<RowKey, Status>

  function RowOf(f: Finding): RowKey {
    RowKey(Coalesce(f.internalKey, IssueKey(f)), IssueKey(f))
  }

  /** Which findings are one row: those of one issue that have the same internal key, or none at all. */
  lemma RowsAreTold(f: Finding, g: Finding)
    ensures RowOf(f).issueKey == IssueKey(f)
    ensures f.internalKey.Some? && g.internalKey.Some? ==>
              (RowOf(f) == RowOf(g) <==> f.internalKey == g.internalKey && IssueKey(f) == IssueKey(g))
    ensures f.internalKey.None? && g.internalKey.None? ==> (RowOf(f) == RowOf(g) <==> IssueKey(f) == IssueKey(g))
    ensures f.internalKey.Some? && g.internalKey.None? ==>
              (RowOf(f) == RowOf(g) <==> f.internalKey == Some(IssueKey(g)) && IssueKey(f) == IssueKey(g))
  {
  }

  function Rows(fs: seq<Finding>): set<RowKey> {
    set f | f in fs :: RowOf(f)
  }

  function Issues(fs: seq<Finding>): set<string> {
    set f | f in fs :: IssueKey(f)
  }

  // ---- the statements ----

  /** Inserts what is missing and skips duplicates. */
  function Inserted(t: Table, fs: seq<Finding>): Table {
    map k | k in t.Keys + Rows(fs) :: if k in t then t[k] else Open
  }

  /** Opens every row of a detected issue, whichever scanner reported it, unless it is ignored. */
  function Reopened(t: Table, fs: seq<Finding>): Table {
    map k | k in t :: if k.issueKey in Issues(fs) && t[k] != VerifiedIgnored then Open else t[k]
  }

  predicate IsLive(s: Status) {
    s == Open || s == Triaged || s == Fixed
  }

  /** The live rows that a retest did not see, split by whether they are fixed already. */
  function ToFix(t: Table, detected: set<string>): set<RowKey> {
    set k | k in t && IsLive(t[k]) && k.issueKey !in detected && t[k] != Fixed
  }

  function ToVerify(t: Table, detected: set<string>): set<RowKey> {
    set k | k in t && IsLive(t[k]) && k.issueKey !in detected && t[k] == Fixed
  }

  /** An update by row identifiers, whatever the rows' statuses are by now. */
  function Updated(t: Table, ks: set<RowKey>, s: Status): Table {
    map k | k in t :: if k in ks then s else t[k]
  }

  // ---- whole steps, one after the other ----

  datatype Step =
    | Scan(retest: bool, findings: seq<Finding>)
    | Manual(row: RowKey, status: Status)

  predicate Enabled(t: Table, step: Step) {
    step.Manual? ==> step.row in t && (step.status == Triaged || step.status == VerifiedIgnored)
  }

  function Scanned(t: Table, retest: bool, fs: seq<Finding>): Table {
    var u := Reopened(Inserted(t, fs), fs);
    if retest
    then Updated(Updated(u, ToFix(u, Issues(fs)), Fixed), ToVerify(u, Issues(fs)), Verified)
    else u
  }

  function Apply(t: Table, step: Step): Table {
    match step
    case Scan(retest, fs) => Scanned(t, retest, fs)
    case Manual(row, status) => t[row := status]
  }

  predicate Possible(steps: seq<Step>)
    decreases |steps|
  {
    steps == [] || (Possible(steps[..|steps| - 1]) && Enabled(Exec(steps[..|steps| - 1]), steps[|steps| - 1]))
  }

  function Exec(steps: seq<Step>): Table
    decreases |steps|
  {
    if steps == [] then map[] else Apply(Exec(steps[..|steps| - 1]), steps[|steps| - 1])
  }

  // ---- the status as a function of the history ----

  /** The issue is detected, or the row is triaged. */
  predicate Touches(step: Step, r: RowKey) {
    match step
    case Scan(_, fs) => r.issueKey in Issues(fs)
    case Manual(row, status) => row == r && status == Triaged
  }

  /** A retest that does not see the issue. */
  predicate IsClean(step: Step, r: RowKey) {
    step.Scan? && step.retest && r.issueKey !in Issues(step.findings)
  }

  predicate IsLastTouch(steps: seq<Step>, r: RowKey, i: int) {
    && 0 <= i < |steps| && Touches(steps[i], r)
    && forall j :: i < j < |steps| ==> !Touches(steps[j], r)
  }

  function CleanSince(steps: seq<Step>, r: RowKey, i: int): set<int>
    requires 0 <= i
  {
    set j | i < j < |steps| && IsClean(steps[j], r)
  }

  /** Someone ignored the row, and nobody has triaged it since. */
  ghost predicate IsIgnored(steps: seq<Step>, r: RowKey) {
    exists i :: IgnoredAt(steps, r, i)
  }

  ghost predicate IgnoredAt(steps: seq<Step>, r: RowKey, i: int) {
    && 0 <= i < |steps| && steps[i] == Manual(r, VerifiedIgnored)
    && forall j :: i < j < |steps| ==> steps[j] != Manual(r, Triaged)
  }

  function StatusFor(touch: Step, cleans: nat): Status {
    if cleans == 0 then (if touch.Scan? then Open else Triaged)
    else if cleans == 1 then Fixed
    else Verified
  }

  /** One step, seen from one row. */
  lemma ApplyAt(t: Table, step: Step, r: RowKey)
    requires Enabled(t, step)
    ensures r in Apply(t, step) <==> r in t || (step.Scan? && r in Rows(step.findings))
    ensures r !in t && r in Apply(t, step) ==> Touches(step, r) && Apply(t, step)[r] == Open
    ensures r in t ==>
              Apply(t, step)[r] ==
              if step.Manual? then (if step.row == r then step.status else t[r])
              else if t[r] == VerifiedIgnored then t[r]
              else if Touches(step, r) then Open
              else if IsClean(step, r) then (if t[r] == Open || t[r] == Triaged then Fixed else Verified)
              else t[r]
  {
    match step
    case Scan(retest, fs) => ScanAt(t, retest, fs, r);
    case Manual(_, _) =>
  }

  lemma ScanAt(t: Table, retest: bool, fs: seq<Finding>, r: RowKey)
    ensures r in Scanned(t, retest, fs) <==> r in t || r in Rows(fs)
    ensures r !in t && r in Rows(fs) ==> r.issueKey in Issues(fs) && Scanned(t, retest, fs)[r] == Open
    ensures r in t ==>
              Scanned(t, retest, fs)[r] ==
              if t[r] == VerifiedIgnored then t[r]
              else if r.issueKey in Issues(fs) then Open
              else if retest then (if t[r] == Open || t[r] == Triaged then Fixed else Verified)
              else t[r]
  {
    UpsertedAt(t, fs, r);
    var u := Reopened(Inserted(t, fs), fs);
    hide Inserted, Reopened, Rows;
    RetestedAt(u, Issues(fs), r);
    hide Issues, Updated, ToFix, ToVerify;
  }

  lemma UpsertedAt(t: Table, fs: seq<Finding>, r: RowKey)
    ensures var u := Reopened(Inserted(t, fs), fs);
            && (r in u <==> r in t || r in Rows(fs))
            && (r !in t && r in Rows(fs) ==> r.issueKey in Issues(fs) && u[r] == Open)
            && (r in t ==> u[r] == if r.issueKey in Issues(fs) && t[r] != VerifiedIgnored then Open else t[r])
  {
    if r in Rows(fs) {
      var f :| f in fs && RowOf(f) == r;
      assert IssueKey(f) in Issues(fs);
    }
  }

  lemma RetestedAt(u: Table, detected: set<string>, r: RowKey)
    ensures var t := Updated(Updated(u, ToFix(u, detected), Fixed), ToVerify(u, detected), Verified);
            && (r in t <==> r in u)
            && (r in u ==> t[r] == if r.issueKey in detected || !IsLive(u[r]) then u[r]
                                   else if u[r] == Fixed then Verified else Fixed)
  {
  }

  lemma IgnoredSnoc(front: seq<Step>, last: Step, r: RowKey)
    ensures IsIgnored(front + [last], r) <==>
              last == Manual(r, VerifiedIgnored) || (IsIgnored(front, r) && last != Manual(r, Triaged))
  {
    var steps := front + [last];
    if last == Manual(r, VerifiedIgnored) {
      assert IgnoredAt(steps, r, |front|);
    } else if IsIgnored(front, r) && last != Manual(r, Triaged) {
      var i :| IgnoredAt(front, r, i);
      assert IgnoredAt(steps, r, i);
    } else if IsIgnored(steps, r) {
      var i :| IgnoredAt(steps, r, i);
      assert steps[|front|] == last;
      forall j | i < j < |front|
        ensures front[j] != Manual(r, Triaged)
      {
        assert steps[j] == front[j];
      }
      assert IgnoredAt(front, r, i);
    }
  }

  /** A row is ignored exactly if someone ignored it and nobody has triaged it since. */
  lemma {:induction false} IgnoredIsHistory(steps: seq<Step>, r: RowKey)
    requires Possible(steps)
    ensures IsIgnored(steps, r) <==> r in Exec(steps) && Exec(steps)[r] == VerifiedIgnored
    decreases |steps|
  {
    hide Apply, Touches, IsClean, IsIgnored;
    if steps == [] {
      NothingIgnored(r);
    } else {
      var front, last := steps[..|steps| - 1], steps[|steps| - 1];
      assert steps == front + [last];
      IgnoredIsHistory(front, r);
      ApplyAt(Exec(front), last, r);
      IgnoredSnoc(front, last, r);
    }
  }

  lemma NothingIgnored(r: RowKey)
    ensures !IsIgnored([], r)
  {
  }

  lemma TouchSnoc(front: seq<Step>, last: Step, r: RowKey)
    requires Touches(last, r)
    ensures IsLastTouch(front + [last], r, |front|) && CleanSince(front + [last], r, |front|) == {}
  {
  }

  lemma NoTouchSnoc(front: seq<Step>, last: Step, r: RowKey, i: int)
    requires !Touches(last, r) && IsLastTouch(front, r, i)
    ensures var steps := front + [last];
            && IsLastTouch(steps, r, i) && steps[i] == front[i]
            && |CleanSince(steps, r, i)| == |CleanSince(front, r, i)| + if IsClean(last, r) then 1 else 0
  {
    hide Touches, IsClean;
    var steps := front + [last];
    forall j | i < j < |steps|
      ensures !Touches(steps[j], r)
    {
      assert steps[j] == if j < |front| then front[j] else last;
    }
    assert forall j :: 0 <= j < |front| ==> steps[j] == front[j];
    assert steps[|front|] == last;
    assert CleanSince(steps, r, i) == CleanSince(front, r, i) + if IsClean(last, r) then {|front|} else {};
  }

  ghost predicate StatusIs(steps: seq<Step>, r: RowKey, s: Status, i: int) {
    IsLastTouch(steps, r, i) && s == StatusFor(steps[i], |CleanSince(steps, r, i)|)
  }

  /**
   The status of a row that is not ignored is a function of the history: open after a detection
   or triaged after a triage with no clean retest since, fixed after exactly one clean retest,
   verified after two or more.
   */
  lemma {:induction false} StatusIsHistory(steps: seq<Step>, r: RowKey)
    requires Possible(steps) && r in Exec(steps) && !IsIgnored(steps, r)
    ensures exists i :: StatusIs(steps, r, Exec(steps)[r], i)
    decreases |steps|
  {
    hide Apply, Touches, IsClean, IsIgnored, IsLastTouch, CleanSince;
    var front, last := steps[..|steps| - 1], steps[|steps| - 1];
    assert steps == front + [last];
    var t := Exec(front);
    ApplyAt(t, last, r);
    IgnoredIsHistory(front, r);
    IgnoredSnoc(front, last, r);
    TouchFacts(last, r);
    if Touches(last, r) {
      TouchSnoc(front, last, r);
      assert StatusIs(steps, r, Exec(steps)[r], |front|);
    } else {
      StatusIsHistory(front, r);
      var i :| StatusIs(front, r, t[r], i);
      NoTouchSnoc(front, last, r, i);
      assert StatusIs(steps, r, Exec(steps)[r], i);
    }
  }

  lemma TouchFacts(step: Step, r: RowKey)
    ensures step.Manual? ==> (Touches(step, r) <==> step == Manual(r, Triaged)) && !IsClean(step, r)
    ensures Touches(step, r) ==> !IsClean(step, r)
  {
  }

  /** Some scan has reported every row there is, and every reported row is there. */
  lemma {:induction false} RowsAreReported(steps: seq<Step>, r: RowKey)
    requires Possible(steps)
    ensures r in Exec(steps) <==> exists i :: 0 <= i < |steps| && Reports(steps[i], r)
    decreases |steps|
  {
    hide Apply;
    if steps != [] {
      var front, last := steps[..|steps| - 1], steps[|steps| - 1];
      ApplyAt(Exec(front), last, r);
      RowsAreReported(front, r);
      assert steps == front + [last];
      if i :| 0 <= i < |front| && Reports(front[i], r) {
        assert Reports(steps[i], r);
      }
    }
  }

  predicate Reports(step: Step, r: RowKey) {
    step.Scan? && r in Rows(step.findings)
  }
}
