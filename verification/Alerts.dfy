/**
 Monitoring alerts over a sequence of runs that do not overlap, with people acknowledging alerts
 in between. The alert table has a unique key of fingerprint and status, so it is a set of such
 pairs, and an update that would make two rows equal throws. The database may also fail before
 or after any statement.
 */
module Alerts {
  import opened Options
  import opened Findings
  import opened FiniteSets
  import Regression

  datatype Kind = Outage | TlsError | Warning | SlowResponse | Changed(change: Regression.Change)

  datatype Fingerprint = Fingerprint(scope: string, ruleId: string, kind: Kind)

  datatype Status = Open | Acknowledged | Resolved | Suppressed

  datatype Row = Row(fp: Fingerprint, status: Status)

  type Table = set<Row>

  const OUTAGE := Fingerprint("site", "AVAILABILITY_OUTAGE", Outage)
  const TLS_INVALID := Fingerprint("site", "TLS_INVALID", TlsError)
  const TLS_NEAR_EXPIRY := Fingerprint("site", "TLS_NEAR_EXPIRY", Warning)
  const PERF := Fingerprint("site", "PERF_DEGRADATION", SlowResponse)

  /** What one run hands to the alert engine; `scope` shortens a page's URL. */
  datatype Report = Report(
    available: bool,
    failures: nat, // consecutive failures, this run included
    threshold: nat,
    tlsValid: bool,
    tlsNearExpiry: bool,
    slow: bool,
    rows: seq<Regression.Row>,
    scope: string -> string)

  /** The table, and whether a statement threw; what was written before that stays. */
  datatype Outcome = Outcome(table: Table, threw: bool)

  // ---- single statements ----

  /** Creates an alert unless one is open or acknowledged. */
  function Ensure(t: Table, p: Fingerprint): Table {
    if Row(p, Open) in t || Row(p, Acknowledged) in t then t else t + {Row(p, Open)}
  }

  /** Resolves the open rows among `ps`, or throws if one of them was resolved before. */
  function Resolve(t: Table, ps: set<Fingerprint>): Outcome {
    var open := set p | p in ps && Row(p, Open) in t;
    if exists p :: p in open && Row(p, Resolved) in t then Outcome(t, true)
    else Outcome(t - (set p | p in open :: Row(p, Open)) + (set p | p in open :: Row(p, Resolved)), false)
  }

  function OutagePrints(t: Table): set<Fingerprint> {
    set r | r in t && r.fp.ruleId == "AVAILABILITY_OUTAGE" :: r.fp
  }

  datatype Statement = EnsureOpen(p: Fingerprint) | Close(ps: set<Fingerprint>) | CloseOutages

  function Do(t: Table, s: Statement): Outcome {
    match s
    case EnsureOpen(p) => Outcome(Ensure(t, p), false)
    case Close(ps) => Resolve(t, ps)
    case CloseOutages => Resolve(t, OutagePrints(t))
  }

  // ---- the engine ----

  function ChangePrint(report: Report, row: Regression.Row, change: Regression.Change): Fingerprint {
    Fingerprint(report.scope(row.url), row.ruleId, Changed(change))
  }

  function ForAvailability(report: Report): seq<Statement> {
    if report.available then [CloseOutages]
    else if report.failures >= report.threshold then [EnsureOpen(OUTAGE)]
    else []
  }

  function ForTls(report: Report): seq<Statement> {
    if !report.tlsValid && report.available then [EnsureOpen(TLS_INVALID)]
    else if report.tlsNearExpiry then [EnsureOpen(TLS_NEAR_EXPIRY)]
    else []
  }

  function ForPerformance(report: Report): seq<Statement> {
    if report.slow && report.available then [EnsureOpen(PERF)] else []
  }

  function ForRow(report: Report, row: Regression.Row): seq<Statement> {
    if row.change == Regression.Resolved
    then [Close({ChangePrint(report, row, Regression.Regressed), ChangePrint(report, row, Regression.New)})]
    else if row.severity == Critical || row.severity == High
    then [EnsureOpen(ChangePrint(report, row, row.change))]
    else []
  }

  function ForRows(report: Report, rows: seq<Regression.Row>): seq<Statement>
    decreases |rows|
  {
    if rows == [] then [] else ForRow(report, rows[0]) + ForRows(report, rows[1..])
  }

  function Tail(report: Report): seq<Statement> {
    ForTls(report) + (ForPerformance(report) + ForRows(report, report.rows))
  }

  function Statements(report: Report): seq<Statement> {
    ForAvailability(report) + Tail(report)
  }

  function Less(fault: Option<nat>): Option<nat>
    requires fault != Some(0)
  {
    if fault.Some? then Some(fault.value - 1) else None
  }

  /** The statements in order. A fault is an error of the database after so many of them have taken effect. */
  function Execute(t: Table, ss: seq<Statement>, fault: Option<nat>): Outcome
    decreases |ss|
  {
    if fault == Some(0) then Outcome(t, true)
    else if ss == [] then Outcome(t, fault.Some?)
    else
      var o := Do(t, ss[0]);
      if o.threw then o else Execute(o.table, ss[1..], Less(fault))
  }

  lemma ExecuteFirst(t: Table, s: Statement, rest: seq<Statement>, fault: Option<nat>)
    ensures Execute(t, [s] + rest, fault) ==
              if fault == Some(0) then Outcome(t, true)
              else if Do(t, s).threw then Do(t, s)
              else Execute(Do(t, s).table, rest, Less(fault))
  {
    hide Do;
    assert ([s] + rest)[1..] == rest;
  }

  // ---- the table as the engine sees it ----

  class AlertTable {
    var rows: Table

    constructor ()
      ensures rows == {}
    {
      rows := {};
    }

    /** findFirst, then create with the unique violation swallowed. */
    method EnsureAlert(p: Fingerprint)
      modifies this
      ensures rows == Ensure(old(rows), p)
    {
      var existing := Row(p, Open) in rows || Row(p, Acknowledged) in rows;
      if !existing {
        if Row(p, Open) !in rows {
          rows := rows + {Row(p, Open)};
        }
      }
    }

    method ResolveAlerts(ps: set<Fingerprint>) returns (threw: bool)
      modifies this
      ensures Outcome(rows, threw) == Resolve(old(rows), ps)
    {
      var open := set p | p in ps && Row(p, Open) in rows;
      threw := exists p :: p in open && Row(p, Resolved) in rows;
      if !threw {
        rows := rows - (set p | p in open :: Row(p, Open)) + (set p | p in open :: Row(p, Resolved));
      }
    }

    /** One alert to open, with the fault that may come before it. */
    method TryEnsure(p: Fingerprint, fault: Option<nat>, ghost rest: seq<Statement>) returns (threw: bool, left: Option<nat>)
      modifies this
      ensures !threw ==> Execute(rows, rest, left) == Execute(old(rows), [EnsureOpen(p)] + rest, fault)
      ensures threw ==> Outcome(rows, true) == Execute(old(rows), [EnsureOpen(p)] + rest, fault)
    {
      hide Execute, Ensure;
      ExecuteFirst(rows, EnsureOpen(p), rest, fault);
      if fault == Some(0) {
        return true, fault;
      }
      EnsureAlert(p);
      threw, left := false, Less(fault);
    }

    /** One update that resolves alerts, by fingerprint or, without fingerprints, the outages. */
    method TryResolve(ps: Option<set<Fingerprint>>, fault: Option<nat>, ghost rest: seq<Statement>)
      returns (threw: bool, left: Option<nat>)
      modifies this
      ensures var s := if ps.Some? then Close(ps.value) else CloseOutages;
              && (!threw ==> Execute(rows, rest, left) == Execute(old(rows), [s] + rest, fault))
              && (threw ==> Outcome(rows, true) == Execute(old(rows), [s] + rest, fault))
    {
      hide Execute, Resolve, OutagePrints;
      ExecuteFirst(rows, if ps.Some? then Close(ps.value) else CloseOutages, rest, fault);
      left := fault;
      if fault == Some(0) {
        return true, fault;
      }
      threw := ResolveAlerts(if ps.Some? then ps.value else OutagePrints(rows));
      left := Less(fault);
    }

    method ProcessAlerts(report: Report, fault: Option<nat>) returns (threw: bool)
      modifies this
      ensures Outcome(rows, threw) == Execute(old(rows), Statements(report), fault)
      ensures !threw ==> forall p :: Row(p, Open) in rows <==> OpenAfter(old(rows), report, p)
      ensures forall p :: Row(p, Acknowledged) in rows <==> Row(p, Acknowledged) in old(rows)
    {
      threw := RunStatements(report, fault);
      hide Execute, Statements, OpenAfter;
      ExecuteEvolves(old(rows), Statements(report), fault);
      forall p
        ensures Row(p, Acknowledged) in rows <==> Row(p, Acknowledged) in old(rows)
        ensures !threw ==> (Row(p, Open) in rows <==> OpenAfter(old(rows), report, p))
      {
        assert Moved(old(rows), rows, p);
        if !threw {
          RunOpensAlerts(old(rows), report, fault, p);
        }
      }
    }

    method RunStatements(report: Report, fault: Option<nat>) returns (threw: bool)
      modifies this
      ensures Outcome(rows, threw) == Execute(old(rows), Statements(report), fault)
    {
      hide Execute, ChangePrint, ForRows;
      var left := fault;
      threw := false;
      ghost var rest := ForTls(report) + (ForPerformance(report) + ForRows(report, report.rows));
      assert [] + rest == rest;
      if !report.available {
        if report.failures >= report.threshold {
          threw, left := TryEnsure(OUTAGE, left, rest);
        }
      } else {
        threw, left := TryResolve(None, left, rest);
      }
      if threw {
        return;
      }
      rest := ForPerformance(report) + ForRows(report, report.rows);
      assert [] + rest == rest;
      if !report.tlsValid && report.available {
        threw, left := TryEnsure(TLS_INVALID, left, rest);
      } else if report.tlsNearExpiry {
        threw, left := TryEnsure(TLS_NEAR_EXPIRY, left, rest);
      }
      if threw {
        return;
      }
      rest := ForRows(report, report.rows);
      assert [] + rest == rest;
      if report.slow && report.available {
        threw, left := TryEnsure(PERF, left, rest);
      }
      if threw {
        return;
      }
      threw := ProcessRows(report, left);
    }

    method ProcessRows(report: Report, fault: Option<nat>) returns (threw: bool)
      modifies this
      ensures Outcome(rows, threw) == Execute(old(rows), ForRows(report, report.rows), fault)
    {
      hide Execute, ChangePrint;
      var left := fault;
      for i := 0 to |report.rows|
        invariant Execute(rows, ForRows(report, report.rows[i..]), left)
               == Execute(old(rows), ForRows(report, report.rows), fault)
      {
        var row := report.rows[i];
        assert report.rows[i..][1..] == report.rows[i + 1..];
        ghost var rest := ForRows(report, report.rows[i + 1..]);
        assert ForRows(report, report.rows[i..]) == ForRow(report, row) + rest;
        assert [] + rest == rest;
        threw := false;
        if row.change == Regression.Resolved {
          var ps := {ChangePrint(report, row, Regression.Regressed), ChangePrint(report, row, Regression.New)};
          threw, left := TryResolve(Some(ps), left, rest);
        } else if row.severity == Critical || row.severity == High {
          threw, left := TryEnsure(ChangePrint(report, row, row.change), left, rest);
        }
        if threw {
          return;
        }
      }
      ExecuteNothing(rows, left);
      threw := left.Some?;
    }
  }

  lemma ExecuteNothing(t: Table, fault: Option<nat>)
    ensures Execute(t, [], fault) == Outcome(t, fault.Some?)
  {
  }

  // ---- how statements can change the table ----

  /**
   Acknowledged and resolved rows stay. An open row whose alert was resolved before stays as
   well. An acknowledged alert is not opened again.
   */
  ghost predicate Evolves(t: Table, u: Table) {
    forall p {:trigger Moved(t, u, p)} :: Moved(t, u, p)
  }

  ghost predicate Moved(t: Table, u: Table, p: Fingerprint) {
    && (Row(p, Acknowledged) in t <==> Row(p, Acknowledged) in u)
    && (Row(p, Resolved) in t ==> Row(p, Resolved) in u)
    && (Row(p, Open) in t && Row(p, Resolved) in t ==> Row(p, Open) in u)
    && (Row(p, Acknowledged) in t && Row(p, Open) in u ==> Row(p, Open) in t)
  }

  lemma EvolvesOn(t: Table, u: Table, v: Table)
    requires Evolves(t, u) && Evolves(u, v)
    ensures Evolves(t, v)
  {
    forall p
      ensures Moved(t, v, p)
    {
      assert Moved(t, u, p) && Moved(u, v, p);
    }
  }

  lemma EvolvesSelf(t: Table)
    ensures Evolves(t, t)
  {
  }

  lemma EnsureEvolves(t: Table, p: Fingerprint)
    ensures Evolves(t, Ensure(t, p))
  {
  }

  lemma ResolveEvolves(t: Table, ps: set<Fingerprint>)
    ensures Evolves(t, Resolve(t, ps).table)
  {
  }

  lemma DoEvolves(t: Table, s: Statement)
    ensures Evolves(t, Do(t, s).table)
  {
    hide Resolve, Ensure, Evolves, OutagePrints;
    match s
    case EnsureOpen(p) => EnsureEvolves(t, p);
    case Close(ps) => ResolveEvolves(t, ps);
    case CloseOutages => ResolveEvolves(t, OutagePrints(t));
  }

  lemma {:induction false} ExecuteEvolves(t: Table, ss: seq<Statement>, fault: Option<nat>)
    ensures Evolves(t, Execute(t, ss, fault).table)
    decreases |ss|
  {
    hide Do, Evolves;
    EvolvesSelf(t);
    if fault != Some(0) && ss != [] {
      var o := Do(t, ss[0]);
      DoEvolves(t, ss[0]);
      if !o.threw {
        ExecuteEvolves(o.table, ss[1..], Less(fault));
        EvolvesOn(t, o.table, Execute(o.table, ss[1..], Less(fault)).table);
      }
    }
  }

  // ---- what a run opens and closes ----

  /** What the run found of the site itself is a reason for this alert. */
  predicate SiteOpens(report: Report, p: Fingerprint) {
    || (p == OUTAGE && !report.available && report.failures >= report.threshold)
    || (p == TLS_INVALID && report.available && !report.tlsValid)
    || (p == TLS_NEAR_EXPIRY && report.tlsNearExpiry && (report.tlsValid || !report.available))
    || (p == PERF && report.available && report.slow)
  }

  /** The site is up again. */
  predicate SiteCloses(report: Report, p: Fingerprint) {
    report.available && p.ruleId == "AVAILABILITY_OUTAGE"
  }

  /** A critical or high issue, found new, regressed or persisting, is a reason for its alert. */
  predicate RowOpens(report: Report, row: Regression.Row, p: Fingerprint) {
    && row.change != Regression.Resolved && (row.severity == Critical || row.severity == High)
    && p == Fingerprint(report.scope(row.url), row.ruleId, Changed(row.change))
  }

  /** The issue is gone. */
  predicate RowCloses(report: Report, row: Regression.Row, p: Fingerprint) {
    && row.change == Regression.Resolved && p.scope == report.scope(row.url) && p.ruleId == row.ruleId
    && (p.kind == Changed(Regression.New) || p.kind == Changed(Regression.Regressed))
  }

  predicate RowsClose(report: Report, rows: seq<Regression.Row>, p: Fingerprint) {
    exists i :: 0 <= i < |rows| && RowCloses(report, rows[i], p)
  }

  /** Some row is a reason for the alert, and no later one closes it. */
  predicate RowsOpen(report: Report, rows: seq<Regression.Row>, p: Fingerprint) {
    exists i :: 0 <= i < |rows| && RowOpens(report, rows[i], p)
      && forall j :: i < j < |rows| ==> !RowCloses(report, rows[j], p)
  }

  /** The alert is open after a run that met `t`: it was and nothing closed it, or there is a reason for it and it is not acknowledged. */
  predicate OpenAfter(t: Table, report: Report, p: Fingerprint) {
    || (Row(p, Open) in t && !SiteCloses(report, p) && !RowsClose(report, report.rows, p))
    || (Row(p, Acknowledged) !in t && (SiteOpens(report, p) || RowsOpen(report, report.rows, p)))
  }

  lemma DoOpens(t: Table, s: Statement, p: Fingerprint)
    requires !Do(t, s).threw
    ensures Row(p, Acknowledged) in Do(t, s).table <==> Row(p, Acknowledged) in t
    ensures Row(p, Open) in Do(t, s).table <==>
              match s
              case EnsureOpen(q) => Row(p, Open) in t || (p == q && Row(p, Acknowledged) !in t)
              case Close(ps) => Row(p, Open) in t && p !in ps
              case CloseOutages => Row(p, Open) in t && p.ruleId != "AVAILABILITY_OUTAGE"
  {
  }

  lemma ExecuteAtMostOne(t: Table, ss: seq<Statement>)
    requires |ss| <= 1
    ensures Execute(t, ss, None) == if ss == [] then Outcome(t, false) else Do(t, ss[0])
  {
    hide Do;
    if |ss| == 1 {
      assert ss[1..] == [];
      ExecuteNothing(Do(t, ss[0]).table, None);
    }
  }

  lemma {:induction false} ExecuteConcat(t: Table, a: seq<Statement>, b: seq<Statement>)
    ensures var o := Execute(t, a, None);
            Execute(t, a + b, None) == if o.threw then o else Execute(o.table, b, None)
    decreases |a|
  {
    hide Do;
    if a == [] {
      assert a + b == b;
    } else {
      assert (a + b)[0] == a[0] && (a + b)[1..] == a[1..] + b;
      if !Do(t, a[0]).threw {
        ExecuteConcat(Do(t, a[0]).table, a[1..], b);
      }
    }
  }

  lemma {:induction false} FaultsThrow(t: Table, ss: seq<Statement>, fault: Option<nat>)
    requires !Execute(t, ss, fault).threw
    ensures fault == None
    decreases |ss|
  {
    hide Do;
    if ss != [] {
      FaultsThrow(Do(t, ss[0]).table, ss[1..], Less(fault));
    }
  }

  lemma RowOpensAlerts(t: Table, report: Report, row: Regression.Row, p: Fingerprint)
    requires !Execute(t, ForRow(report, row), None).threw
    ensures var u := Execute(t, ForRow(report, row), None).table;
            && (Row(p, Acknowledged) in u <==> Row(p, Acknowledged) in t)
            && (Row(p, Open) in u <==> (Row(p, Open) in t && !RowCloses(report, row, p))
                                       || (Row(p, Acknowledged) !in t && RowOpens(report, row, p)))
  {
    ExecuteAtMostOne(t, ForRow(report, row));
    hide Execute, Do;
    if ForRow(report, row) != [] {
      DoOpens(t, ForRow(report, row)[0], p);
    }
  }

  lemma RowsFromFirst(report: Report, rows: seq<Regression.Row>, p: Fingerprint)
    requires rows != []
    ensures RowsClose(report, rows, p) <==> RowCloses(report, rows[0], p) || RowsClose(report, rows[1..], p)
    ensures RowsOpen(report, rows, p) <==>
              RowsOpen(report, rows[1..], p) || (RowOpens(report, rows[0], p) && !RowsClose(report, rows[1..], p))
  {
    hide RowCloses, RowOpens;
    var rest := rows[1..];
    assert forall i :: 0 <= i < |rest| ==> rest[i] == rows[i + 1];
    assert forall i :: 0 < i < |rows| ==> rows[i] == rest[i - 1];
    if RowsOpen(report, rest, p) {
      var i :| 0 <= i < |rest| && RowOpens(report, rest[i], p)
               && forall j :: i < j < |rest| ==> !RowCloses(report, rest[j], p);
      assert RowOpens(report, rows[i + 1], p);
      forall j | i + 1 < j < |rows|
        ensures !RowCloses(report, rows[j], p)
      {
        assert rows[j] == rest[j - 1];
      }
    }
    if RowsClose(report, rest, p) {
      var i :| 0 <= i < |rest| && RowCloses(report, rest[i], p);
      assert RowCloses(report, rows[i + 1], p);
    }
  }

  lemma {:induction false} RowsOpenAlerts(t: Table, report: Report, rows: seq<Regression.Row>, p: Fingerprint)
    requires !Execute(t, ForRows(report, rows), None).threw
    ensures var u := Execute(t, ForRows(report, rows), None).table;
            Row(p, Open) in u <==> (Row(p, Open) in t && !RowsClose(report, rows, p))
                                   || (Row(p, Acknowledged) !in t && RowsOpen(report, rows, p))
    decreases |rows|
  {
    hide Execute, ForRow, RowCloses, RowOpens;
    if rows == [] {
      ExecuteNothing(t, None);
    } else {
      hide RowsClose, RowsOpen;
      ExecuteConcat(t, ForRow(report, rows[0]), ForRows(report, rows[1..]));
      RowOpensAlerts(t, report, rows[0], p);
      RowsOpenAlerts(Execute(t, ForRow(report, rows[0]), None).table, report, rows[1..], p);
      RowsFromFirst(report, rows, p);
    }
  }

  /** The statements about the site itself. */
  lemma SiteOpensAlerts(t: Table, report: Report, p: Fingerprint)
    requires !Execute(t, ForAvailability(report) + (ForTls(report) + ForPerformance(report)), None).threw
    ensures var u := Execute(t, ForAvailability(report) + (ForTls(report) + ForPerformance(report)), None).table;
            && (Row(p, Acknowledged) in u <==> Row(p, Acknowledged) in t)
            && (Row(p, Open) in u <==> (Row(p, Open) in t && !SiteCloses(report, p))
                                       || (Row(p, Acknowledged) !in t && SiteOpens(report, p)))
  {
    var a, b, c := ForAvailability(report), ForTls(report), ForPerformance(report);
    ExecuteConcat(t, a, b + c);
    var t1 := Execute(t, a, None).table;
    ExecuteConcat(t1, b, c);
    var t2 := Execute(t1, b, None).table;
    ExecuteAtMostOne(t, a);
    ExecuteAtMostOne(t1, b);
    ExecuteAtMostOne(t2, c);
    hide Execute, Do;
    if a != [] { DoOpens(t, a[0], p); }
    if b != [] { DoOpens(t1, b[0], p); }
    if c != [] { DoOpens(t2, c[0], p); }
  }

  /**
   After a run of the engine that does not throw, whatever its report and whatever the table before:
   exactly those alerts are open that were and that nothing in the report closes, and those that
   are not acknowledged and that the report gives a reason for.
   */
  lemma RunOpensAlerts(t: Table, report: Report, fault: Option<nat>, p: Fingerprint)
    requires !Execute(t, Statements(report), fault).threw
    ensures Row(p, Open) in Execute(t, Statements(report), fault).table <==> OpenAfter(t, report, p)
  {
    hide Execute, Statements, ForAvailability, ForTls, ForPerformance, ForRows, RowsOpen, RowsClose, SiteCloses, SiteOpens;
    FaultsThrow(t, Statements(report), fault);
    SiteThenRows(report);
    var a := ForAvailability(report) + (ForTls(report) + ForPerformance(report));
    ExecuteConcat(t, a, ForRows(report, report.rows));
    SiteOpensAlerts(t, report, p);
    RowsOpenAlerts(Execute(t, a, None).table, report, report.rows, p);
    if SiteOpens(report, p) {
      SiteAlertsAreNotRows(report, p);
    }
  }

  lemma SiteThenRows(report: Report)
    ensures Statements(report) ==
              ForAvailability(report) + (ForTls(report) + ForPerformance(report)) + ForRows(report, report.rows)
  {
    hide ForAvailability, ForTls, ForPerformance, ForRows;
  }

  /** So an alert that the report gives a reason for is open or acknowledged. */
  lemma ReasonsAreLive(t: Table, report: Report, fault: Option<nat>, p: Fingerprint)
    requires !Execute(t, Statements(report), fault).threw
    requires SiteOpens(report, p) || RowsOpen(report, report.rows, p)
    ensures var u := Execute(t, Statements(report), fault).table;
            Row(p, Open) in u || Row(p, Acknowledged) in u
  {
    hide Execute, Statements, SiteOpens, RowsOpen, RowsClose, SiteCloses;
    RunOpensAlerts(t, report, fault, p);
    ExecuteEvolves(t, Statements(report), fault);
    assert Moved(t, Execute(t, Statements(report), fault).table, p);
  }

  lemma SiteAlertsAreNotRows(report: Report, p: Fingerprint)
    requires SiteOpens(report, p)
    ensures !RowsClose(report, report.rows, p)
  {
  }

  // ---- runs and acknowledgements ----

  datatype Monitor = Monitor(failures: nat, table: Table)

  /**
   How far a run comes: one that does not reach its end throws there. Within the alerts it throws
   after so many statements of the engine have taken effect.
   */
  datatype Extent = BeforeAlerts | InAlerts(done: nat) | BeforeUpdate | AfterUpdate | AtEnd

  datatype Run = Run(report: Report, extent: Extent)

  datatype Event = Ran(run: Run) | Acknowledge(row: Row)

  /** The report with the failure count the run passes on. */
  function Counted(m: Monitor, run: Run): Report {
    run.report.(failures := if run.report.available then 0 else m.failures + 1)
  }

  /** What becomes of the alerts in a run, and whether it has thrown by then. */
  function Engine(m: Monitor, run: Run): Outcome {
    if run.extent == BeforeAlerts then Outcome(m.table, true)
    else Execute(m.table, Statements(Counted(m, run)), if run.extent.InAlerts? then Some(run.extent.done) else None)
  }

  /** The run writes its failure count to the configuration. */
  predicate Writes(m: Monitor, run: Run) {
    !Engine(m, run).threw && run.extent != BeforeUpdate
  }

  /** The site was down, or the run threw. */
  predicate Failed(m: Monitor, run: Run) {
    !run.report.available || !Writes(m, run) || run.extent == AfterUpdate
  }

  /**
   The update writes the run's own failure count; the catch block increments whatever count it
   finds, also one that this very run has written.
   */
  function RunOnce(m: Monitor, run: Run): Monitor {
    Monitor(
      if Writes(m, run) then Counted(m, run).failures + (if run.extent == AfterUpdate then 1 else 0) else m.failures + 1,
      Engine(m, run).table)
  }

  /** Acknowledging a row; nothing changes without the row, nor if that would repeat an acknowledged row. */
  function AfterAcknowledge(t: Table, row: Row): Table {
    if row !in t || Row(row.fp, Acknowledged) in t then t else t - {row} + {Row(row.fp, Acknowledged)}
  }

  function Step(m: Monitor, e: Event): Monitor {
    match e
    case Ran(run) => RunOnce(m, run)
    case Acknowledge(row) => m.(table := AfterAcknowledge(m.table, row))
  }

  function Exec(m: Monitor, es: seq<Event>): Monitor
    decreases |es|
  {
    if es == [] then m else Step(Exec(m, es[..|es| - 1]), es[|es| - 1])
  }

  /** The monitor before the event at `i`. */
  function Before(m: Monitor, es: seq<Event>, i: int): Monitor
    requires 0 <= i <= |es|
  {
    Exec(m, es[..i])
  }

  lemma BeforeNext(m: Monitor, es: seq<Event>, n: nat)
    requires n < |es|
    ensures Before(m, es, n + 1) == Step(Before(m, es, n), es[n])
  {
    hide Step;
    assert es[..n + 1][..n] == es[..n];
  }

  lemma BeforeEnds(m: Monitor, es: seq<Event>)
    ensures Before(m, es, 0) == m && Before(m, es, |es|) == Exec(m, es)
  {
    hide Step;
    assert es[..|es|] == es;
  }

  // ---- the failure count ----

  predicate FailedAt(m: Monitor, es: seq<Event>, i: int) {
    0 <= i < |es| && es[i].Ran? && Failed(Before(m, es, i), es[i].run)
  }

  /** The run at `i` found the site up and wrote the count back to zero. */
  predicate ResetsAt(m: Monitor, es: seq<Event>, i: int) {
    && 0 <= i < |es| && es[i].Ran? && es[i].run.report.available
    && Writes(Before(m, es, i), es[i].run)
  }

  /** The run at `i` was down and threw after it had written its count. */
  predicate DoublesAt(m: Monitor, es: seq<Event>, i: int) {
    && 0 <= i < |es| && es[i].Ran? && !es[i].run.report.available
    && Writes(Before(m, es, i), es[i].run) && es[i].run.extent == AfterUpdate
  }

  /** The last of the first `n` events that reset the count, or -1. */
  function LastReset(m: Monitor, es: seq<Event>, n: nat): (r: int)
    requires n <= |es|
    ensures -1 <= r < n
    ensures r >= 0 ==> ResetsAt(m, es, r)
    ensures forall i :: r < i < n ==> !ResetsAt(m, es, i)
    decreases n
  {
    hide ResetsAt;
    if n == 0 then -1 else if ResetsAt(m, es, n - 1) then n - 1 else LastReset(m, es, n - 1)
  }

  /** The failed runs since the count was last zero; the resetting run is one of them if it threw afterwards. */
  function FailedSince(m: Monitor, es: seq<Event>, n: nat): set<int>
    requires n <= |es|
  {
    set i | 0 <= i < n && LastReset(m, es, n) <= i && FailedAt(m, es, i)
  }

  /** The runs since then that count twice. */
  function DoubledSince(m: Monitor, es: seq<Event>, n: nat): set<int>
    requires n <= |es|
  {
    set i | 0 <= i < n && LastReset(m, es, n) < i && DoublesAt(m, es, i)
  }

  /** The runs of the streak before event `n`: they and all runs after them failed. */
  ghost function Streak(m: Monitor, es: seq<Event>, n: nat): set<int>
    requires n <= |es|
  {
    set i | 0 <= i < n && InStreak(m, es, n, i)
  }

  ghost predicate InStreak(m: Monitor, es: seq<Event>, n: int, i: int) {
    && 0 <= i < n <= |es| && es[i].Ran?
    && forall j :: i <= j < n && es[j].Ran? ==> FailedAt(m, es, j)
  }

  /** The event at `n` as the counting sees it. */
  lemma CountNext(m: Monitor, es: seq<Event>, n: nat)
    requires n < |es|
    ensures var before, after := Before(m, es, n).failures, Before(m, es, n + 1).failures;
            && (!es[n].Ran? ==> after == before && !FailedAt(m, es, n))
            && (ResetsAt(m, es, n) ==> after == (if FailedAt(m, es, n) then 1 else 0) && !DoublesAt(m, es, n))
            && (es[n].Ran? && !ResetsAt(m, es, n) ==>
                  FailedAt(m, es, n) && after == before + (if DoublesAt(m, es, n) then 2 else 1))
  {
    hide Engine, Before;
    BeforeNext(m, es, n);
  }

  lemma SetsNext(m: Monitor, es: seq<Event>, n: nat)
    requires n < |es|
    ensures ResetsAt(m, es, n) ==>
              && FailedSince(m, es, n + 1) == (if FailedAt(m, es, n) then {n} else {})
              && DoubledSince(m, es, n + 1) == {}
    ensures !ResetsAt(m, es, n) ==>
              && FailedSince(m, es, n + 1) == FailedSince(m, es, n) + (if FailedAt(m, es, n) then {n} else {})
              && DoubledSince(m, es, n + 1) == DoubledSince(m, es, n) + (if DoublesAt(m, es, n) then {n} else {})
  {
    hide FailedAt, DoublesAt, ResetsAt;
  }

  lemma SizesNext(m: Monitor, es: seq<Event>, n: nat)
    requires n < |es|
    ensures ResetsAt(m, es, n) ==>
              && |FailedSince(m, es, n + 1)| == (if FailedAt(m, es, n) then 1 else 0)
              && |DoubledSince(m, es, n + 1)| == 0
    ensures !ResetsAt(m, es, n) ==>
              && |FailedSince(m, es, n + 1)| == |FailedSince(m, es, n)| + (if FailedAt(m, es, n) then 1 else 0)
              && |DoubledSince(m, es, n + 1)| == |DoubledSince(m, es, n)| + (if DoublesAt(m, es, n) then 1 else 0)
  {
    SetsNext(m, es, n);
    assert n !in FailedSince(m, es, n) && n !in DoubledSince(m, es, n);
    hide FailedSince, DoubledSince, FailedAt, DoublesAt, ResetsAt;
  }

  ghost predicate CountsAt(m: Monitor, es: seq<Event>, n: nat)
    requires n <= |es|
  {
    Before(m, es, n).failures == |FailedSince(m, es, n)| + |DoubledSince(m, es, n)|
  }

  lemma CountsNext(m: Monitor, es: seq<Event>, n: nat)
    requires n < |es| && CountsAt(m, es, n)
    ensures CountsAt(m, es, n + 1)
  {
    hide Before, FailedAt, ResetsAt, DoublesAt, FailedSince, DoubledSince;
    CountNext(m, es, n);
    SizesNext(m, es, n);
    Doubles(m, es, n);
  }

  /** The failure count is exact: one for every failed run since it was last zero, and one more for those that count twice. */
  lemma {:induction false} CountIsExact(m: Monitor, es: seq<Event>, n: nat)
    requires m.failures == 0 && n <= |es|
    ensures Before(m, es, n).failures == |FailedSince(m, es, n)| + |DoubledSince(m, es, n)|
    decreases n
  {
    hide Before, FailedSince, DoubledSince;
    if n == 0 {
      NothingCounted(m, es);
    } else {
      CountIsExact(m, es, n - 1);
      CountsNext(m, es, n - 1);
    }
  }

  lemma NothingCounted(m: Monitor, es: seq<Event>)
    requires m.failures == 0
    ensures Before(m, es, 0).failures == |FailedSince(m, es, 0)| + |DoubledSince(m, es, 0)|
  {
    BeforeEnds(m, es);
    hide Before, FailedAt, DoublesAt;
    assert FailedSince(m, es, 0) == {} && DoubledSince(m, es, 0) == {};
  }

  lemma Doubles(m: Monitor, es: seq<Event>, i: int)
    ensures DoublesAt(m, es, i) ==> FailedAt(m, es, i) && es[i].Ran?
  {
  }

  /** The runs that the count counts are a streak: all of them failed, and so did every run after them. */
  lemma CountedRunsAreAStreak(m: Monitor, es: seq<Event>, n: nat)
    requires n <= |es|
    ensures FailedSince(m, es, n) <= Streak(m, es, n)
    ensures |FailedSince(m, es, n)| <= |Streak(m, es, n)|
  {
    hide Before, FailedAt, ResetsAt, DoublesAt, LastReset;
    forall i, j | i in FailedSince(m, es, n) && i <= j < n && es[j].Ran?
      ensures FailedAt(m, es, j)
    {
      CountNext(m, es, j);
    }
    forall i | i in FailedSince(m, es, n)
      ensures InStreak(m, es, n, i)
    {
      FailedIsRun(m, es, i);
    }
    SubsetSize(FailedSince(m, es, n), Streak(m, es, n));
  }

  lemma FailedIsRun(m: Monitor, es: seq<Event>, i: int)
    ensures FailedAt(m, es, i) ==> 0 <= i < |es| && es[i].Ran?
  {
  }

  lemma StreakNext(m: Monitor, es: seq<Event>, n: nat)
    requires n < |es| && FailedAt(m, es, n)
    ensures |Streak(m, es, n + 1)| == |Streak(m, es, n)| + 1
  {
    FailedIsRun(m, es, n);
    hide FailedAt, Before;
    assert InStreak(m, es, n + 1, n);
    forall i | 0 <= i < n
      ensures InStreak(m, es, n + 1, i) <==> InStreak(m, es, n, i)
    {
    }
    assert Streak(m, es, n + 1) == Streak(m, es, n) + {n};
  }

  // ---- outage alerts ----

  ghost predicate OutageOpen(t: Table) {
    Row(OUTAGE, Open) in t
  }

  predicate IsElsewhere(s: Statement) {
    s != CloseOutages && s != EnsureOpen(OUTAGE) && (s.Close? ==> OUTAGE !in s.ps)
  }

  lemma DoElsewhere(t: Table, s: Statement)
    requires IsElsewhere(s)
    ensures OutageOpen(Do(t, s).table) == OutageOpen(t)
  {
  }

  lemma {:induction false} RowsAreElsewhere(report: Report, rows: seq<Regression.Row>)
    ensures forall s :: s in ForRows(report, rows) ==> IsElsewhere(s)
    decreases |rows|
  {
    if rows != [] {
      assert forall c, row :: ChangePrint(report, row, c) != OUTAGE;
      RowsAreElsewhere(report, rows[1..]);
    }
  }

  lemma TailIsElsewhere(report: Report)
    ensures forall s :: s in Tail(report) ==> IsElsewhere(s)
  {
    RowsAreElsewhere(report, report.rows);
  }

  lemma {:induction false} ExecuteElsewhere(t: Table, ss: seq<Statement>, fault: Option<nat>)
    requires forall s :: s in ss ==> IsElsewhere(s)
    ensures OutageOpen(Execute(t, ss, fault).table) == OutageOpen(t)
    decreases |ss|
  {
    hide Do, IsElsewhere, OutageOpen;
    if fault != Some(0) && ss != [] {
      DoElsewhere(t, ss[0]);
      var o := Do(t, ss[0]);
      if !o.threw {
        ExecuteElsewhere(o.table, ss[1..], Less(fault));
      }
    }
  }

  /** An outage alert is open although the same alert was resolved before. */
  ghost predicate Jammed(t: Table) {
    exists p: Fingerprint :: p.ruleId == "AVAILABILITY_OUTAGE" && JammedAt(t, p)
  }

  ghost predicate JammedAt(t: Table, p: Fingerprint) {
    Row(p, Open) in t && Row(p, Resolved) in t
  }

  lemma CloseOutagesMeans(t: Table)
    ensures Do(t, CloseOutages).threw <==> Jammed(t)
    ensures Jammed(t) ==> Do(t, CloseOutages).table == t
    ensures OutageOpen(Do(t, CloseOutages).table) <==> OutageOpen(t) && Jammed(t)
  {
    if p: Fingerprint :| p.ruleId == "AVAILABILITY_OUTAGE" && JammedAt(t, p) {
      assert Row(p, Open).fp in OutagePrints(t);
    }
    if Row(OUTAGE, Open) in t {
      assert Row(OUTAGE, Open).fp in OutagePrints(t);
    }
  }

  /** The run's first statement of the alert engine takes effect. */
  predicate Reaches(run: Run) {
    run.extent != BeforeAlerts && run.extent != InAlerts(0)
  }

  /** The run finds the site down for as long as its threshold says, and no outage is acknowledged. */
  predicate Alarms(m: Monitor, run: Run) {
    && Reaches(run) && !run.report.available
    && m.failures + 1 >= run.report.threshold && Row(OUTAGE, Acknowledged) !in m.table
  }

  ghost predicate Recovers(m: Monitor, run: Run) {
    Reaches(run) && run.report.available && !Jammed(m.table)
  }

  /**
   A run leaves an outage alert open exactly if it raises one, or if one was open and it does not
   close it: that takes a run that finds the site up, comes as far as the alerts, and meets no jam.
   */
  lemma RunMovesOutage(m: Monitor, run: Run)
    ensures OutageOpen(RunOnce(m, run).table) <==>
              Alarms(m, run) || (OutageOpen(m.table) && !Recovers(m, run))
    ensures Reaches(run) && run.report.available && Jammed(m.table) ==> !Writes(m, run)
  {
    var report := Counted(m, run);
    var fault := if run.extent.InAlerts? then Some(run.extent.done) else None;
    TailIsElsewhere(report);
    CloseOutagesMeans(m.table);
    assert [] + Tail(report) == Tail(report);
    hide Tail, Jammed, Execute;
    if Reaches(run) {
      if report.available {
        FirstStatement(m.table, CloseOutages, Tail(report), fault);
      } else if report.failures >= report.threshold {
        FirstStatement(m.table, EnsureOpen(OUTAGE), Tail(report), fault);
      } else {
        ExecuteElsewhere(m.table, Tail(report), fault);
      }
    } else if run.extent != BeforeAlerts {
      NoStatement(m.table, Statements(report));
    }
  }

  lemma FirstStatement(t: Table, s: Statement, rest: seq<Statement>, fault: Option<nat>)
    requires fault != Some(0) && forall x :: x in rest ==> IsElsewhere(x)
    ensures var o := Execute(t, [s] + rest, fault);
            && OutageOpen(o.table) == OutageOpen(Do(t, s).table)
            && (Do(t, s).threw ==> o.threw)
  {
    hide Do, Execute, IsElsewhere, OutageOpen;
    ExecuteFirst(t, s, rest, fault);
    if !Do(t, s).threw {
      ExecuteElsewhere(Do(t, s).table, rest, Less(fault));
    }
  }

  lemma NoStatement(t: Table, ss: seq<Statement>)
    ensures Execute(t, ss, Some(0)) == Outcome(t, true)
  {
  }

  /**
   After a run that found the site up an outage alert is open exactly if it was open and the run
   broke off before its first alert statement, or the table was jammed: then that statement
   violates the unique key, and the run throws and leaves the alert open.
   */
  lemma UpClosesOutageUnlessJammed(m: Monitor, run: Run)
    requires run.report.available
    ensures OutageOpen(RunOnce(m, run).table) <==>
              OutageOpen(m.table) && (run.extent == BeforeAlerts || run.extent == InAlerts(0) || Jammed(m.table))
  {
    RunMovesOutage(m, run);
  }

  // ---- outages over whole histories ----

  ghost predicate OpensAt(m: Monitor, es: seq<Event>, i: int) {
    0 <= i < |es| && es[i].Ran? && Alarms(Before(m, es, i), es[i].run)
  }

  /** The event at `i` closes or acknowledges the open outage alert. */
  ghost predicate EndsAt(m: Monitor, es: seq<Event>, i: int) {
    && 0 <= i < |es|
    && match es[i]
       case Ran(run) => Recovers(Before(m, es, i), run) && !Alarms(Before(m, es, i), run)
       case Acknowledge(row) => row == Row(OUTAGE, Open) && Row(OUTAGE, Acknowledged) !in Before(m, es, i).table
  }

  ghost predicate OpenSince(m: Monitor, es: seq<Event>, n: int, i: int) {
    OpensAt(m, es, i) && i < n && forall j :: i < j < n ==> !EndsAt(m, es, j)
  }

  lemma OutageNext(m: Monitor, es: seq<Event>, n: nat)
    requires n < |es|
    ensures OutageOpen(Before(m, es, n + 1).table) <==>
              OpensAt(m, es, n) || (OutageOpen(Before(m, es, n).table) && !EndsAt(m, es, n))
    ensures OpensAt(m, es, n) ==> !EndsAt(m, es, n)
  {
    BeforeNext(m, es, n);
    hide Before, RunOnce;
    var before := Before(m, es, n);
    match es[n]
    case Ran(run) =>
      RunMovesOutage(before, run);
    case Acknowledge(row) =>
  }

  /** Some run raised the outage alert, and no event since has closed or acknowledged it. */
  ghost predicate IsOpenSince(m: Monitor, es: seq<Event>, n: nat) {
    exists i :: OpenSince(m, es, n, i)
  }

  lemma OpenSinceNext(m: Monitor, es: seq<Event>, n: nat)
    requires n < |es|
    ensures IsOpenSince(m, es, n + 1) <==> OpensAt(m, es, n) || (IsOpenSince(m, es, n) && !EndsAt(m, es, n))
  {
    hide OpensAt, EndsAt;
    if OpensAt(m, es, n) {
      assert OpenSince(m, es, n + 1, n);
    } else {
      if i :| OpenSince(m, es, n, i) && !EndsAt(m, es, n) {
        assert OpenSince(m, es, n + 1, i);
      }
      var next := n + 1;
      if i :| OpenSince(m, es, next, i) {
        assert i != n;
        assert OpenSince(m, es, n, i);
      }
    }
  }

  /**
   An outage alert is open after `n` events exactly if some run before raised it and no event since
   closed or acknowledged it: a run that finds the site up closes it unless it breaks off before its
   first alert statement or meets a jam.
   */
  lemma {:induction false} OutageIsHistory(m: Monitor, es: seq<Event>, n: nat)
    requires !OutageOpen(m.table) && n <= |es|
    ensures OutageOpen(Before(m, es, n).table) <==> IsOpenSince(m, es, n)
    decreases n
  {
    BeforeEnds(m, es);
    assert !IsOpenSince(m, es, 0);
    hide Before, OpensAt, EndsAt, OutageOpen, IsOpenSince;
    if n > 0 {
      OutageIsHistory(m, es, n - 1);
      OutageNext(m, es, n - 1);
      OpenSinceNext(m, es, n - 1);
    }
  }

  /**
   When a run opens the outage alert: exactly when it comes as far as the alerts, finds the site
   down, no outage is acknowledged, and the failed runs since the count was last zero, with those
   that count twice and this one, make up its threshold.
   */
  lemma OutageOpensIff(m: Monitor, es: seq<Event>, n: nat)
    requires m.failures == 0 && n < |es| && es[n].Ran? && !OutageOpen(Before(m, es, n).table)
    ensures var run := es[n].run;
            OutageOpen(Before(m, es, n + 1).table) <==>
              && Reaches(run) && !run.report.available && Row(OUTAGE, Acknowledged) !in Before(m, es, n).table
              && run.report.threshold <= |FailedSince(m, es, n)| + |DoubledSince(m, es, n)| + 1
  {
    hide Before, OutageOpen, FailedSince, DoubledSince, Recovers;
    CountIsExact(m, es, n);
    OutageNext(m, es, n);
  }

  /**
   The alert opens although fewer runs in a row have failed than its threshold says, exactly if the
   streak and this run fall short of the threshold and the counted failures do not. Without a run
   that counted twice since the count was last zero, it never does.
   */
  lemma OutageOpensEarlyIff(m: Monitor, es: seq<Event>, n: nat)
    requires m.failures == 0 && n < |es| && es[n].Ran? && !OutageOpen(Before(m, es, n).table)
    ensures var run := es[n].run;
            var k, d, streak := |FailedSince(m, es, n)|, |DoubledSince(m, es, n)|, |Streak(m, es, n)|;
            && (OutageOpen(Before(m, es, n + 1).table) && |Streak(m, es, n + 1)| < run.report.threshold <==>
                  && Reaches(run) && !run.report.available && Row(OUTAGE, Acknowledged) !in Before(m, es, n).table
                  && streak + 1 < run.report.threshold <= k + d + 1)
            && (OutageOpen(Before(m, es, n + 1).table) && d == 0 ==> run.report.threshold <= |Streak(m, es, n + 1)|)
  {
    OutageOpensIff(m, es, n);
    CountedRunsAreAStreak(m, es, n);
    DownFails(m, es, n);
    hide Before, OutageOpen, FailedSince, DoubledSince, Streak, FailedAt;
    if !es[n].run.report.available {
      StreakNext(m, es, n);
    }
  }

  lemma DownFails(m: Monitor, es: seq<Event>, n: nat)
    requires n < |es|
    ensures es[n].Ran? && !es[n].run.report.available ==> FailedAt(m, es, n)
  {
  }

  /** A run that counts twice brings the alert on early: two failures reach a threshold of three. */
  lemma DoubleCountingAlertsEarly(scope: string -> string)
    ensures var down := Run(Report(false, 0, 3, true, false, false, [], scope), AtEnd);
            var es := [Ran(down.(extent := AfterUpdate)), Ran(down)];
            OutageOpen(Exec(Monitor(0, {}), es).table) && 3 > |es|
  {
    var down := Run(Report(false, 0, 3, true, false, false, [], scope), AtEnd);
    var first := down.(extent := AfterUpdate);
    var m0, m1 := Monitor(0, {}), Monitor(2, {});
    QuietReport(Counted(m0, first));
    QuietReport(Counted(m1, down));
    ExecuteOne({}, EnsureOpen(OUTAGE));
    ExecuteNothing({}, None);
    EnsureTheOutage();
    hide Execute, Do, Tail, OutageOpen;
    assert RunOnce(m0, first) == m1;
    assert RunOnce(m1, down) == Monitor(3, {Row(OUTAGE, Open)});
    hide RunOnce;
    TwoEvents(m0, Ran(first), Ran(down));
    assert OutageOpen({Row(OUTAGE, Open)}) by { OutageIsRow(); }
  }

  lemma OutageIsRow()
    ensures OutageOpen({Row(OUTAGE, Open)})
  {
  }

  lemma TwoEvents(m: Monitor, e: Event, f: Event)
    ensures Exec(m, [e, f]) == Step(Step(m, e), f)
  {
    hide Step;
    assert [e, f][..1] == [e] && [e][..0] == [];
    assert Exec(m, [e]) == Step(Exec(m, []), e);
  }

  /** Nothing to say but about the availability. */
  lemma QuietReport(report: Report)
    requires report.tlsValid && !report.tlsNearExpiry && !report.slow && report.rows == []
    ensures Statements(report) == ForAvailability(report)
  {
    assert ForAvailability(report) + [] == ForAvailability(report);
  }

  lemma ExecuteOne(t: Table, s: Statement)
    ensures Execute(t, [s], None) == Do(t, s)
  {
    hide Do;
    assert [s] + [] == [s];
    ExecuteFirst(t, s, [], None);
  }

  // ---- the jam ----

  lemma SecondOutageJams(m: Monitor, run: Run)
    requires Row(OUTAGE, Resolved) in m.table && Alarms(m, run)
    ensures Jammed(RunOnce(m, run).table)
  {
    RunMovesOutage(m, run);
    EngineEvolves(m, run);
    assert Moved(m.table, RunOnce(m, run).table, OUTAGE);
    hide RunOnce;
    assert JammedAt(RunOnce(m, run).table, OUTAGE);
  }

  lemma EngineEvolves(m: Monitor, run: Run)
    ensures Evolves(m.table, RunOnce(m, run).table)
  {
    EvolvesSelf(m.table);
    hide Execute, Evolves, Statements;
    ExecuteEvolves(m.table, Statements(Counted(m, run)), if run.extent.InAlerts? then Some(run.extent.done) else None);
  }

  /** An outage, a recovery and a second outage, each one run long: the table is jammed after the third run. */
  lemma JamHappens(scope: string -> string)
    ensures var down := Run(Report(false, 0, 1, true, false, false, [], scope), AtEnd);
            var up := down.(report := down.report.(available := true));
            && Exec(Monitor(0, {}), [Ran(down), Ran(up)]) == Monitor(0, {Row(OUTAGE, Resolved)})
            && Jammed(Exec(Monitor(0, {}), [Ran(down), Ran(up), Ran(down)]).table)
  {
    hide RunOnce, Jammed;
    var down := Run(Report(false, 0, 1, true, false, false, [], scope), AtEnd);
    var up := down.(report := down.report.(available := true));
    var m0, m1, m2 := Monitor(0, {}), Monitor(1, {Row(OUTAGE, Open)}), Monitor(0, {Row(OUTAGE, Resolved)});
    OutageThenRecovery(down, up);
    SecondOutageJams(m2, down);
    assert [Ran(down), Ran(up), Ran(down)][..2] == [Ran(down), Ran(up)];
    assert [Ran(down), Ran(up)][..1] == [Ran(down)] && [Ran(down)][..0] == [];
    assert Exec(m0, [Ran(down)]) == m1;
    assert Exec(m0, [Ran(down), Ran(up)]) == m2;
  }

  lemma OutageThenRecovery(down: Run, up: Run)
    requires down.extent == AtEnd && !down.report.available && down.report.threshold <= 1
    requires down.report.tlsValid && !down.report.tlsNearExpiry && !down.report.slow && down.report.rows == []
    requires up == down.(report := down.report.(available := true))
    ensures Step(Monitor(0, {}), Ran(down)) == Monitor(1, {Row(OUTAGE, Open)})
    ensures Step(Monitor(1, {Row(OUTAGE, Open)}), Ran(up)) == Monitor(0, {Row(OUTAGE, Resolved)})
  {
    hide Execute, Do, Statements;
    var m0, m1 := Monitor(0, {}), Monitor(1, {Row(OUTAGE, Open)});
    QuietReport(Counted(m0, down));
    QuietReport(Counted(m1, up));
    ExecuteOne(m0.table, EnsureOpen(OUTAGE));
    ExecuteOne(m1.table, CloseOutages);
    EnsureTheOutage();
    CloseTheOutage();
  }

  lemma EnsureTheOutage()
    ensures Do({}, EnsureOpen(OUTAGE)) == Outcome({Row(OUTAGE, Open)}, false)
  {
  }

  lemma CloseTheOutage()
    ensures Do({Row(OUTAGE, Open)}, CloseOutages) == Outcome({Row(OUTAGE, Resolved)}, false)
  {
    var t := {Row(OUTAGE, Open)};
    assert OutagePrints(t) == {OUTAGE} by {
      assert Row(OUTAGE, Open).fp in OutagePrints(t);
    }
    var open := set p | p in {OUTAGE} && Row(p, Open) in t;
    assert open == {OUTAGE};
    assert (set p | p in open :: Row(p, Open)) == {Row(OUTAGE, Open)};
    assert (set p | p in open :: Row(p, Resolved)) == {Row(OUTAGE, Resolved)};
  }

  /** The event acknowledges one of the two rows that make the jam. */
  predicate Unjams(t: Table, e: Event, p: Fingerprint) {
    && e.Acknowledge? && e.row.fp == p && (e.row.status == Open || e.row.status == Resolved)
    && Row(p, Acknowledged) !in t
  }

  /** A jam stays through an event exactly if that does not acknowledge one of its rows. */
  lemma JamStaysUnless(m: Monitor, e: Event, p: Fingerprint)
    requires JammedAt(m.table, p)
    ensures JammedAt(Step(m, e).table, p) <==> !Unjams(m.table, e, p)
  {
    match e
    case Ran(run) =>
      EngineEvolves(m, run);
      assert Moved(m.table, RunOnce(m, run).table, p);
      hide RunOnce;
    case Acknowledge(row) =>
  }

  /**
   A jam lasts exactly until one of its rows is acknowledged. Until then every run fails, whether
   the site is up or down, and counts as a failure.
   */
  lemma {:induction false} JamLastsUntilAcknowledged(m: Monitor, es: seq<Event>, p: Fingerprint, n: nat)
    requires JammedAt(m.table, p) && n <= |es|
    ensures (forall i :: 0 <= i <= n ==> JammedAt(Before(m, es, i).table, p)) <==>
            (forall i :: 0 <= i < n ==> !Unjams(Before(m, es, i).table, es[i], p))
    decreases n
  {
    BeforeEnds(m, es);
    hide Before, JammedAt, Unjams, Step;
    if n > 0 {
      JamLastsUntilAcknowledged(m, es, p, n - 1);
      BeforeNext(m, es, n - 1);
      if JammedAt(Before(m, es, n - 1).table, p) {
        JamStaysUnless(Before(m, es, n - 1), es[n - 1], p);
      }
    }
  }

  lemma JammedRunsFail(m: Monitor, run: Run, p: Fingerprint)
    requires JammedAt(m.table, p) && p.ruleId == "AVAILABILITY_OUTAGE"
    ensures Failed(m, run) && RunOnce(m, run).failures > m.failures
  {
    RunMovesOutage(m, run);
    assert Jammed(m.table);
    hide Engine, Jammed;
  }

  // ---- acknowledging ----

  /** No alert is open and acknowledged at once. */
  ghost predicate OneLive(t: Table) {
    forall p :: !(Row(p, Open) in t && Row(p, Acknowledged) in t)
  }

  /** A run, or the acknowledgement of an open row or of an alert without one. */
  predicate IsProper(t: Table, e: Event) {
    e.Acknowledge? ==> e.row !in t || e.row.status == Open || Row(e.row.fp, Open) !in t
  }

  /** An event keeps that exactly if it does not acknowledge a closed row of an open alert. */
  lemma StepKeepsOneLive(m: Monitor, e: Event)
    requires OneLive(m.table)
    ensures OneLive(Step(m, e).table) <==> IsProper(m.table, e)
  {
    match e
    case Ran(run) =>
      EngineEvolves(m, run);
      hide RunOnce;
      forall p
        ensures !(Row(p, Open) in RunOnce(m, run).table && Row(p, Acknowledged) in RunOnce(m, run).table)
      {
        assert Moved(m.table, RunOnce(m, run).table, p);
      }
    case Acknowledge(row) =>
      var u := AfterAcknowledge(m.table, row);
      if row in m.table && row.status != Open && Row(row.fp, Open) in m.table {
        assert Row(row.fp, Open) in u && Row(row.fp, Acknowledged) in u;
      }
  }

  /**
   Over any history of runs and acknowledgements no alert is ever open and acknowledged at once,
   exactly if every acknowledgement is of an open row, or of an alert without an open row.
   */
  lemma {:induction false} OneLiveIff(m: Monitor, es: seq<Event>, n: nat)
    requires OneLive(m.table) && n <= |es|
    ensures (forall i :: 0 <= i <= n ==> OneLive(Before(m, es, i).table)) <==>
            (forall i :: 0 <= i < n ==> IsProper(Before(m, es, i).table, es[i]))
    decreases n
  {
    BeforeEnds(m, es);
    hide Before, OneLive, IsProper, Step;
    if n > 0 {
      OneLiveIff(m, es, n - 1);
      BeforeNext(m, es, n - 1);
      if OneLive(Before(m, es, n - 1).table) {
        StepKeepsOneLive(Before(m, es, n - 1), es[n - 1]);
      }
    }
  }

  /** Acknowledging open rows only is enough. */
  lemma OpenAcknowledgementsSuffice(m: Monitor, es: seq<Event>)
    requires OneLive(m.table) && forall e :: e in es && e.Acknowledge? ==> e.row.status == Open
    ensures OneLive(Exec(m, es).table)
  {
    OneLiveIff(m, es, |es|);
    BeforeEnds(m, es);
    hide Before, OneLive;
    assert forall i :: 0 <= i < |es| ==> es[i] in es;
    assert OneLive(Before(m, es, |es|).table);
  }

  /** An acknowledged alert stays so, and is never opened again, through any runs and acknowledgements. */
  lemma {:induction false} AcknowledgedIsSilent(m: Monitor, es: seq<Event>, p: Fingerprint)
    requires Row(p, Acknowledged) in m.table && Row(p, Open) !in m.table
    ensures Row(p, Acknowledged) in Exec(m, es).table && Row(p, Open) !in Exec(m, es).table
    decreases |es|
  {
    hide RunOnce;
    if es != [] {
      var before, e := Exec(m, es[..|es| - 1]), es[|es| - 1];
      AcknowledgedIsSilent(m, es[..|es| - 1], p);
      if e.Ran? {
        EngineEvolves(before, e.run);
        assert Moved(before.table, RunOnce(before, e.run).table, p);
      }
    }
  }
}
