/**
 The regression engine: every page's findings are classified against the keys the baseline
 holds for that page, and the pages just seen become the next baseline.
 */
module Regression {
  import opened Options
  import opened Findings
  import opened Scoring

  /** A crawled page with what its scanners found; nothing when there is no HTML or they threw. */
  datatype Page = Page(url: string, finalUrl: string, findings: seq<Finding>)

  datatype PageBaseline = PageBaseline(url: string, scores: Scores, keys: seq<string>)

  datatype Baseline = Baseline(scores: Scores, pages: seq<PageBaseline>, keys: seq<string>)

  datatype Change = New | Regressed | Persisting | Resolved

  datatype Row = Row(ruleId: string, severity: Severity, change: Change, url: string)

  datatype Result = Result(
    scores: Scores,
    deltas: Scores,
    rows: seq<Row>,
    newCount: nat,
    resolvedCount: nat,
    persistingCount: nat,
    baseline: Baseline)

  // ---- the specification ----

  function Key(f: Finding): string {
    OrElse(f.normalizedIssueKey, f.ruleId)
  }

  function KeysOf(fs: seq<Finding>): seq<string>
    decreases |fs|
  {
    if fs == [] then [] else KeysOf(fs[..|fs| - 1]) + [Key(fs[|fs| - 1])]
  }

  /** A list as the program's Set iterates it: first occurrences, in order. */
  function Distinct(ks: seq<string>): seq<string>
    decreases |ks|
  {
    if ks == [] then []
    else
      var front, k := Distinct(ks[..|ks| - 1]), ks[|ks| - 1];
      if k in front then front else front + [k]
  }

  function CurrentKeys(p: Page): seq<string> {
    Distinct(KeysOf(p.findings))
  }

  /** The baseline entry of a URL: the last one wins. */
  function LastWith(ps: seq<PageBaseline>, url: string): Option<PageBaseline>
    decreases |ps|
  {
    if ps == [] then None
    else if ps[|ps| - 1].url == url then Some(ps[|ps| - 1])
    else LastWith(ps[..|ps| - 1], url)
  }

  function PreviousPage(b: Option<Baseline>, p: Page): Option<PageBaseline> {
    if b.None? then None
    else if LastWith(b.value.pages, p.url).Some? then LastWith(b.value.pages, p.url)
    else LastWith(b.value.pages, p.finalUrl)
  }

  function PreviousKeys(b: Option<Baseline>, p: Page): seq<string> {
    var previous := PreviousPage(b, p);
    if previous.Some? then Distinct(previous.value.keys) else []
  }

  function ChangeOf(previous: seq<string>, f: Finding): Change {
    if Key(f) in previous then Persisting
    else if f.severity == Critical || f.severity == High then Regressed
    else New
  }

  function Classified(previous: seq<string>, fs: seq<Finding>, url: string): seq<Row>
    decreases |fs|
  {
    if fs == [] then []
    else
      var f := fs[|fs| - 1];
      Classified(previous, fs[..|fs| - 1], url) + [Row(f.ruleId, f.severity, ChangeOf(previous, f), url)]
  }

  function ResolvedRows(previous: seq<string>, current: seq<string>, url: string): seq<Row>
    decreases |previous|
  {
    if previous == [] then []
    else
      var rows, k := ResolvedRows(previous[..|previous| - 1], current, url), previous[|previous| - 1];
      if k in current then rows else rows + [Row(k, Info, Resolved, url)]
  }

  function PageRows(b: Option<Baseline>, p: Page): seq<Row> {
    Classified(PreviousKeys(b, p), p.findings, p.url) + ResolvedRows(PreviousKeys(b, p), CurrentKeys(p), p.url)
  }

  function Rows(b: Option<Baseline>, pages: seq<Page>): seq<Row>
    decreases |pages|
  {
    if pages == [] then [] else Rows(b, pages[..|pages| - 1]) + PageRows(b, pages[|pages| - 1])
  }

  function AllFindings(pages: seq<Page>): seq<Finding>
    decreases |pages|
  {
    if pages == [] then [] else AllFindings(pages[..|pages| - 1]) + pages[|pages| - 1].findings
  }

  function PageSnapshot(p: Page): PageBaseline {
    PageBaseline(p.url, ScoresOf(p.findings), CurrentKeys(p))
  }

  function Snapshots(pages: seq<Page>): seq<PageBaseline>
    decreases |pages|
  {
    if pages == [] then [] else Snapshots(pages[..|pages| - 1]) + [PageSnapshot(pages[|pages| - 1])]
  }

  function Snapshot(pages: seq<Page>): Baseline {
    Baseline(ScoresOf(AllFindings(pages)), Snapshots(pages), Distinct(KeysOf(AllFindings(pages))))
  }

  function Count(rows: seq<Row>, c: Change): nat
    decreases |rows|
  {
    if rows == [] then 0 else Count(rows[..|rows| - 1], c) + if rows[|rows| - 1].change == c then 1 else 0
  }

  function Minus(a: Scores, b: Scores): Scores {
    Scores(a.lead - b.lead, a.advertising - b.advertising, a.seo - b.seo, a.security - b.security, a.overall - b.overall)
  }

  function PreviousScores(b: Option<Baseline>, current: Scores): Scores {
    if b.Some? then b.value.scores else current
  }

  function Evaluated(pages: seq<Page>, b: Option<Baseline>): Result {
    var rows, scores := Rows(b, pages), ScoresOf(AllFindings(pages));
    Result(scores, Minus(scores, PreviousScores(b, scores)), rows,
           Count(rows, New) + Count(rows, Regressed), Count(rows, Resolved), Count(rows, Persisting), Snapshot(pages))
  }

  // ---- the program's loops ----

  lemma CountSnoc(rows: seq<Row>, row: Row, c: Change)
    ensures Count(rows + [row], c) == Count(rows, c) + if row.change == c then 1 else 0
  {
    assert (rows + [row])[..|rows|] == rows;
  }

  /**
   What a finding's change has to be: persisting if its issue was there before, else regressed if
   it is critical or high, else new.
   */
  predicate Deserves(previous: seq<string>, f: Finding, c: Change) {
    match c
    case Persisting => Key(f) in previous
    case Regressed => Key(f) !in previous && (f.severity == Critical || f.severity == High)
    case New => Key(f) !in previous && f.severity != Critical && f.severity != High
    case Resolved => false
  }

  predicate IsRowOf(previous: seq<string>, f: Finding, url: string, row: Row) {
    row.ruleId == f.ruleId && row.severity == f.severity && row.url == url && Deserves(previous, f, row.change)
  }

  lemma {:induction false} ClassifiedRows(previous: seq<string>, fs: seq<Finding>, url: string)
    ensures var rows := Classified(previous, fs, url);
            |rows| == |fs| && forall i :: 0 <= i < |fs| ==> IsRowOf(previous, fs[i], url, rows[i])
    decreases |fs|
  {
    hide Key;
    if fs != [] {
      ClassifiedRows(previous, fs[..|fs| - 1], url);
    }
  }

  /** Row by row the page's findings, each with the change it deserves. */
  method ClassifyFindings(previous: seq<string>, page: Page) returns (rows: seq<Row>, newCount: nat, persistingCount: nat)
    ensures rows == Classified(previous, page.findings, page.url)
    ensures |rows| == |page.findings|
    ensures forall i :: 0 <= i < |rows| ==> IsRowOf(previous, page.findings[i], page.url, rows[i])
    ensures newCount == Count(rows, New) + Count(rows, Regressed)
    ensures persistingCount == Count(rows, Persisting) && Count(rows, Resolved) == 0
  {
    hide Key, Count;
    rows, newCount, persistingCount := [], 0, 0;
    NoRows();
    var fs := page.findings;
    for i := 0 to |fs|
      invariant rows == Classified(previous, fs[..i], page.url)
      invariant newCount == Count(rows, New) + Count(rows, Regressed)
      invariant persistingCount == Count(rows, Persisting) && Count(rows, Resolved) == 0
    {
      assert fs[..i + 1][..i] == fs[..i];
      var change := ChangeOf(previous, fs[i]);
      if change == New || change == Regressed {
        newCount := newCount + 1;
      }
      if change == Persisting {
        persistingCount := persistingCount + 1;
      }
      var row := Row(fs[i].ruleId, fs[i].severity, change, page.url);
      forall c
        ensures Count(rows + [row], c) == Count(rows, c) + if change == c then 1 else 0
      {
        CountSnoc(rows, row, c);
      }
      rows := rows + [row];
    }
    assert fs[..|fs|] == fs;
    ClassifiedRows(previous, fs, page.url);
  }

  method DetectResolved(previous: seq<string>, current: seq<string>, url: string) returns (rows: seq<Row>, resolvedCount: nat)
    ensures rows == ResolvedRows(previous, current, url)
    ensures resolvedCount == |rows|
    ensures forall row :: row in rows ==>
              row.change == Resolved && row.severity == Info && row.url == url && row.ruleId in previous && row.ruleId !in current
    ensures forall k :: k in previous && k !in current ==> Row(k, Info, Resolved, url) in rows
  {
    rows, resolvedCount := [], 0;
    for i := 0 to |previous|
      invariant rows == ResolvedRows(previous[..i], current, url)
      invariant resolvedCount == |rows|
      invariant forall row :: row in rows ==>
                  row.change == Resolved && row.severity == Info && row.url == url && row.ruleId in previous && row.ruleId !in current
      invariant forall k :: k in previous[..i] && k !in current ==> Row(k, Info, Resolved, url) in rows
    {
      assert previous[..i + 1][..i] == previous[..i];
      if previous[i] !in current {
        resolvedCount := resolvedCount + 1;
        rows := rows + [Row(previous[i], Info, Resolved, url)];
      }
    }
    assert previous[..|previous|] == previous;
  }

  lemma {:induction false} CountAppend(a: seq<Row>, b: seq<Row>, c: Change)
    ensures Count(a + b, c) == Count(a, c) + Count(b, c)
    decreases |b|
  {
    if b == [] {
      assert a + b == a;
    } else {
      var front := b[..|b| - 1];
      CountAppend(a, front, c);
      assert (a + b)[..|a + b| - 1] == a + front;
    }
  }

  lemma {:induction false} ResolvedCounts(previous: seq<string>, current: seq<string>, url: string)
    ensures var rows := ResolvedRows(previous, current, url);
            && Count(rows, Resolved) == |rows|
            && Count(rows, New) == Count(rows, Regressed) == Count(rows, Persisting) == 0
    decreases |previous|
  {
    if previous != [] {
      var front, k := previous[..|previous| - 1], previous[|previous| - 1];
      ResolvedCounts(front, current, url);
      var rows := ResolvedRows(front, current, url);
      assert (rows + [Row(k, Info, Resolved, url)])[..|rows|] == rows;
    }
  }

  method Evaluate(pages: seq<Page>, baseline: Option<Baseline>) returns (r: Result)
    ensures r == Evaluated(pages, baseline)
    ensures forall p, i :: 0 <= p < |pages| && 0 <= i < |pages[p].findings| ==>
              HasRow(r.rows, PreviousKeys(baseline, pages[p]), pages[p], i)
    ensures forall c {:trigger Count(r.rows, c)} :: c != Resolved ==> Count(r.rows, c) == Deserving(baseline, pages, c)
    ensures r.newCount == Deserving(baseline, pages, New) + Deserving(baseline, pages, Regressed)
    ensures r.persistingCount == Deserving(baseline, pages, Persisting)
    ensures r.scores == r.baseline.scores && IsNextBaseline(r.baseline, pages)
    ensures AddsUp(if baseline.Some? then baseline.value.scores else r.scores, r.deltas, r.scores)
  {
    EvaluatedFacts(pages, baseline);
    hide *;
    var rows: seq<Row> := [];
    var newCount, resolvedCount, persistingCount := 0, 0, 0;
    var all: seq<Finding> := [];
    var snapshots: seq<PageBaseline> := [];
    NothingDone(baseline);
    assert pages[..0] == [];
    for i := 0 to |pages|
      invariant IsDone(baseline, pages[..i], rows, all, snapshots, newCount, resolvedCount, persistingCount)
    {
      assert pages[..i + 1] == pages[..i] + [pages[i]];
      var page := pages[i];
      var previous, current := PreviousKeys(baseline, page), CurrentKeys(page);
      var classified, added, persisted := ClassifyFindings(previous, page);
      var resolved, gone := DetectResolved(previous, current, page.url);
      var pageScores := CalculateScores(page.findings, "v3");
      DoneNext(baseline, pages[..i], rows, all, snapshots, newCount, resolvedCount, persistingCount, page, added, persisted);
      all := all + page.findings;
      snapshots := snapshots + [PageBaseline(page.url, pageScores, current)];
      rows := rows + (classified + resolved);
      newCount, resolvedCount, persistingCount := newCount + added, resolvedCount + gone, persistingCount + persisted;
    }
    assert pages[..|pages|] == pages;
    var scores := CalculateScores(all, "v3");
    r := Result(scores, Minus(scores, PreviousScores(baseline, scores)), rows, newCount, resolvedCount, persistingCount,
                Baseline(scores, snapshots, Distinct(KeysOf(all))));
    DoneMeans(baseline, pages, rows, all, snapshots, newCount, resolvedCount, persistingCount);
  }

  /** The pages so far are evaluated. */
  predicate IsDone(b: Option<Baseline>, pages: seq<Page>, rows: seq<Row>, all: seq<Finding>, snapshots: seq<PageBaseline>,
                   newCount: nat, resolvedCount: nat, persistingCount: nat) {
    && rows == Rows(b, pages) && all == AllFindings(pages) && snapshots == Snapshots(pages)
    && Counted(rows, newCount, resolvedCount, persistingCount)
  }

  lemma NothingDone(b: Option<Baseline>)
    ensures IsDone(b, [], [], [], [], 0, 0, 0)
  {
  }

  lemma DoneNext(b: Option<Baseline>, front: seq<Page>, rows: seq<Row>, all: seq<Finding>, snapshots: seq<PageBaseline>,
                 newCount: nat, resolvedCount: nat, persistingCount: nat, page: Page, added: nat, persisted: nat)
    requires IsDone(b, front, rows, all, snapshots, newCount, resolvedCount, persistingCount)
    requires var classified := Classified(PreviousKeys(b, page), page.findings, page.url);
             && added == Count(classified, New) + Count(classified, Regressed)
             && persisted == Count(classified, Persisting) && Count(classified, Resolved) == 0
    ensures var resolved := ResolvedRows(PreviousKeys(b, page), CurrentKeys(page), page.url);
            var more := rows + (Classified(PreviousKeys(b, page), page.findings, page.url) + resolved);
            IsDone(b, front + [page], more, all + page.findings,
                   snapshots + [PageBaseline(page.url, ScoresOf(page.findings), CurrentKeys(page))],
                   newCount + added, resolvedCount + |resolved|, persistingCount + persisted)
  {
    hide PreviousKeys, CurrentKeys, Classified, ResolvedRows, Count, ScoresOf;
    assert (front + [page])[..|front|] == front;
    var classified := Classified(PreviousKeys(b, page), page.findings, page.url);
    var resolved := ResolvedRows(PreviousKeys(b, page), CurrentKeys(page), page.url);
    ResolvedCounts(PreviousKeys(b, page), CurrentKeys(page), page.url);
    CountedNext(rows, newCount, resolvedCount, persistingCount, classified, added, persisted, resolved);
  }

  lemma DoneMeans(b: Option<Baseline>, pages: seq<Page>, rows: seq<Row>, all: seq<Finding>, snapshots: seq<PageBaseline>,
                  newCount: nat, resolvedCount: nat, persistingCount: nat)
    requires IsDone(b, pages, rows, all, snapshots, newCount, resolvedCount, persistingCount)
    ensures var scores := ScoresOf(all);
            Evaluated(pages, b) == Result(scores, Minus(scores, PreviousScores(b, scores)), rows, newCount, resolvedCount,
                                          persistingCount, Baseline(scores, snapshots, Distinct(KeysOf(all))))
  {
    hide ScoresOf, Rows, Count, AllFindings, Snapshots, Distinct, KeysOf, Minus;
  }

  predicate Counted(rows: seq<Row>, newCount: nat, resolvedCount: nat, persistingCount: nat) {
    && newCount == Count(rows, New) + Count(rows, Regressed)
    && resolvedCount == Count(rows, Resolved) && persistingCount == Count(rows, Persisting)
  }

  lemma CountedNext(rows: seq<Row>, newCount: nat, resolvedCount: nat, persistingCount: nat,
                    classified: seq<Row>, added: nat, persisted: nat, resolved: seq<Row>)
    requires Counted(rows, newCount, resolvedCount, persistingCount) && Counted(classified, added, 0, persisted)
    requires Counted(resolved, 0, |resolved|, 0)
    ensures Counted(rows + (classified + resolved), newCount + added, resolvedCount + |resolved|, persistingCount + persisted)
  {
    hide Count;
    forall c
      ensures Count(rows + (classified + resolved), c) == Count(rows, c) + Count(classified, c) + Count(resolved, c)
    {
      CountAppend(rows, classified + resolved, c);
      CountAppend(classified, resolved, c);
    }
  }

  /** What the evaluation says of its pages, rows and deltas. */
  lemma EvaluatedFacts(pages: seq<Page>, baseline: Option<Baseline>)
    ensures var r := Evaluated(pages, baseline);
            && (forall p, i :: 0 <= p < |pages| && 0 <= i < |pages[p].findings| ==>
                  HasRow(r.rows, PreviousKeys(baseline, pages[p]), pages[p], i))
            && (forall c {:trigger Count(r.rows, c)} :: c != Resolved ==> Count(r.rows, c) == Deserving(baseline, pages, c))
            && r.newCount == Deserving(baseline, pages, New) + Deserving(baseline, pages, Regressed)
            && r.persistingCount == Deserving(baseline, pages, Persisting)
            && r.scores == r.baseline.scores && IsNextBaseline(r.baseline, pages)
            && AddsUp(if baseline.Some? then baseline.value.scores else r.scores, r.deltas, r.scores)
  {
    var scores := ScoresOf(AllFindings(pages));
    DeltasAddUp(PreviousScores(baseline, scores), scores);
    RowsAreDeserved(baseline, pages);
    SnapshotFacts(pages);
    hide HasRow, Deserving, IsNextBaseline, AddsUp, Minus, Rows, Count, ScoresOf, AllFindings, Snapshots, PreviousKeys;
    assert Count(Rows(baseline, pages), New) == Deserving(baseline, pages, New);
    assert Count(Rows(baseline, pages), Regressed) == Deserving(baseline, pages, Regressed);
    assert Count(Rows(baseline, pages), Persisting) == Deserving(baseline, pages, Persisting);
  }

  /** In every pillar and overall. */
  predicate AddsUp(before: Scores, deltas: Scores, after: Scores) {
    && after.lead == before.lead + deltas.lead
    && after.advertising == before.advertising + deltas.advertising
    && after.seo == before.seo + deltas.seo
    && after.security == before.security + deltas.security
    && after.overall == before.overall + deltas.overall
  }

  lemma DeltasAddUp(before: Scores, after: Scores)
    ensures AddsUp(before, Minus(after, before), after)
  {
  }

  predicate HasIssue(p: Page, k: string) {
    exists f :: f in p.findings && Key(f) == k
  }

  /** Of a page the next baseline keeps its URL, its own scores, and its issues. */
  ghost predicate IsSnapshotOf(b: PageBaseline, p: Page) {
    b.url == p.url && b.scores == ScoresOf(p.findings) && forall k :: k in b.keys <==> HasIssue(p, k)
  }

  lemma PageSnapshotFacts(p: Page)
    ensures IsSnapshotOf(PageSnapshot(p), p)
  {
    hide Key, ScoresOf;
    DistinctElements(KeysOf(p.findings));
    KeysOfElements(p.findings);
  }

  lemma {:induction false} SnapshotsFacts(pages: seq<Page>)
    ensures |Snapshots(pages)| == |pages| && forall i :: 0 <= i < |pages| ==> IsSnapshotOf(Snapshots(pages)[i], pages[i])
    decreases |pages|
  {
    hide PageSnapshot, IsSnapshotOf;
    if pages != [] {
      SnapshotsFacts(pages[..|pages| - 1]);
      PageSnapshotFacts(pages[|pages| - 1]);
    }
  }

  lemma {:induction false} AllFindingsAre(pages: seq<Page>, f: Finding)
    ensures f in AllFindings(pages) <==> exists p :: p in pages && f in p.findings
    decreases |pages|
  {
    if pages != [] {
      var front, p := pages[..|pages| - 1], pages[|pages| - 1];
      assert pages == front + [p];
      AllFindingsAre(front, f);
    }
  }

  /** Page by page, and with the issues of them all. */
  ghost predicate IsNextBaseline(b: Baseline, pages: seq<Page>) {
    && |b.pages| == |pages| && (forall i :: 0 <= i < |pages| ==> IsSnapshotOf(b.pages[i], pages[i]))
    && forall k :: k in b.keys <==> exists p :: p in pages && HasIssue(p, k)
  }

  lemma SnapshotFacts(pages: seq<Page>)
    ensures IsNextBaseline(Snapshot(pages), pages)
  {
    hide Key, ScoresOf, AllFindings, Snapshots, IsSnapshotOf, KeysOf, Distinct;
    SnapshotsFacts(pages);
    DistinctElements(KeysOf(AllFindings(pages)));
    KeysOfElements(AllFindings(pages));
    forall f: Finding
      ensures f in AllFindings(pages) <==> exists p :: p in pages && f in p.findings
    {
      AllFindingsAre(pages, f);
    }
  }

  /** The finding of the page has its row among these. */
  ghost predicate HasRow(rows: seq<Row>, previous: seq<string>, p: Page, i: nat)
    requires i < |p.findings|
  {
    exists k :: 0 <= k < |rows| && IsRowOf(previous, p.findings[i], p.url, rows[k])
  }

  /** The page's findings, by place, that deserve the change. */
  function DeservingOn(previous: seq<string>, fs: seq<Finding>, c: Change): set<int> {
    set i | 0 <= i < |fs| && Deserves(previous, fs[i], c)
  }

  /** How many findings of all pages deserve it. */
  function Deserving(b: Option<Baseline>, pages: seq<Page>, c: Change): nat
    decreases |pages|
  {
    if pages == [] then 0
    else
      var p := pages[|pages| - 1];
      Deserving(b, pages[..|pages| - 1], c) + |DeservingOn(PreviousKeys(b, p), p.findings, c)|
  }

  lemma DeservingOnSnoc(previous: seq<string>, front: seq<Finding>, f: Finding, c: Change)
    ensures |DeservingOn(previous, front + [f], c)| ==
              |DeservingOn(previous, front, c)| + if Deserves(previous, f, c) then 1 else 0
  {
    hide Deserves;
    var before, fs := DeservingOn(previous, front, c), front + [f];
    assert DeservingOn(previous, fs, c) == before + if Deserves(previous, f, c) then {|front|} else {};
  }

  lemma ChangeIsDeserved(previous: seq<string>, f: Finding, c: Change)
    ensures ChangeOf(previous, f) == c <==> Deserves(previous, f, c)
  {
    hide Key;
  }

  lemma {:induction false} ClassifiedDeserve(previous: seq<string>, fs: seq<Finding>, url: string, c: Change)
    ensures Count(Classified(previous, fs, url), c) == |DeservingOn(previous, fs, c)|
    decreases |fs|
  {
    hide Deserves, ChangeOf;
    if fs == [] {
      assert DeservingOn(previous, fs, c) == {};
    } else {
      hide Count, DeservingOn;
      var front, f := fs[..|fs| - 1], fs[|fs| - 1];
      assert fs == front + [f];
      ClassifiedDeserve(previous, front, url, c);
      DeservingOnSnoc(previous, front, f, c);
      ChangeIsDeserved(previous, f, c);
      CountSnoc(Classified(previous, front, url), Row(f.ruleId, f.severity, ChangeOf(previous, f), url), c);
    }
  }

  lemma PageDeserves(b: Option<Baseline>, p: Page, c: Change)
    requires c != Resolved
    ensures Count(PageRows(b, p), c) == |DeservingOn(PreviousKeys(b, p), p.findings, c)|
  {
    hide PreviousKeys, CurrentKeys, Count, DeservingOn, Classified, ResolvedRows;
    var previous := PreviousKeys(b, p);
    CountAppend(Classified(previous, p.findings, p.url), ResolvedRows(previous, CurrentKeys(p), p.url), c);
    ClassifiedDeserve(previous, p.findings, p.url, c);
    ResolvedCounts(previous, CurrentKeys(p), p.url);
  }

  lemma {:induction false} RowsCountDeserving(b: Option<Baseline>, pages: seq<Page>, c: Change)
    requires c != Resolved
    ensures Count(Rows(b, pages), c) == Deserving(b, pages, c)
    decreases |pages|
  {
    hide PageRows, PreviousKeys, Count, DeservingOn;
    if pages == [] {
      NoRows();
    } else {
      var front, p := pages[..|pages| - 1], pages[|pages| - 1];
      assert pages == front + [p];
      RowsCountDeserving(b, front, c);
      CountAppend(Rows(b, front), PageRows(b, p), c);
      PageDeserves(b, p, c);
    }
  }

  lemma PageHasRow(b: Option<Baseline>, p: Page, i: nat)
    requires i < |p.findings|
    ensures HasRow(PageRows(b, p), PreviousKeys(b, p), p, i)
  {
    hide PreviousKeys, CurrentKeys, Classified, ResolvedRows, IsRowOf;
    var previous := PreviousKeys(b, p);
    ClassifiedRows(previous, p.findings, p.url);
    assert PageRows(b, p)[i] == Classified(previous, p.findings, p.url)[i];
  }

  lemma MoreHaveRow(before: seq<Row>, rows: seq<Row>, after: seq<Row>, previous: seq<string>, p: Page, i: nat)
    requires i < |p.findings| && HasRow(rows, previous, p, i)
    ensures HasRow(before + rows + after, previous, p, i)
  {
    hide IsRowOf;
    var k :| 0 <= k < |rows| && IsRowOf(previous, p.findings[i], p.url, rows[k]);
    assert (before + rows + after)[|before| + k] == rows[k];
  }

  lemma {:induction false} AllHaveRows(b: Option<Baseline>, pages: seq<Page>, p: nat, i: nat)
    requires p < |pages| && i < |pages[p].findings|
    ensures HasRow(Rows(b, pages), PreviousKeys(b, pages[p]), pages[p], i)
    decreases |pages|
  {
    hide HasRow, PreviousKeys, PageRows;
    var front, last := pages[..|pages| - 1], pages[|pages| - 1];
    if p == |front| {
      PageHasRow(b, last, i);
      MoreHaveRow(Rows(b, front), PageRows(b, last), [], PreviousKeys(b, last), last, i);
      assert Rows(b, front) + PageRows(b, last) + [] == Rows(b, front) + PageRows(b, last);
    } else {
      AllHaveRows(b, front, p, i);
      MoreHaveRow([], Rows(b, front), PageRows(b, last), PreviousKeys(b, pages[p]), pages[p], i);
      assert [] + Rows(b, front) + PageRows(b, last) == Rows(b, front) + PageRows(b, last);
    }
  }

  /** Every finding of every page has its row, and no change is reported more or less often than deserved. */
  lemma RowsAreDeserved(b: Option<Baseline>, pages: seq<Page>)
    ensures forall p, i :: 0 <= p < |pages| && 0 <= i < |pages[p].findings| ==>
              HasRow(Rows(b, pages), PreviousKeys(b, pages[p]), pages[p], i)
    ensures forall c {:trigger Count(Rows(b, pages), c)} :: c != Resolved ==> Count(Rows(b, pages), c) == Deserving(b, pages, c)
  {
    hide HasRow, PreviousKeys, Rows, Count, Deserving;
    forall p, i | 0 <= p < |pages| && 0 <= i < |pages[p].findings|
      ensures HasRow(Rows(b, pages), PreviousKeys(b, pages[p]), pages[p], i)
    {
      AllHaveRows(b, pages, p, i);
    }
    forall c | c != Resolved
      ensures Count(Rows(b, pages), c) == Deserving(b, pages, c)
    {
      RowsCountDeserving(b, pages, c);
    }
  }

  /** The page is the last one under this URL. */
  predicate IsLastWith(ps: seq<PageBaseline>, i: int, url: string) {
    0 <= i < |ps| && ps[i].url == url && forall j :: i < j < |ps| ==> ps[j].url != url
  }

  lemma {:induction false} LastWithIs(ps: seq<PageBaseline>, url: string)
    ensures LastWith(ps, url).Some? ==> exists i :: IsLastWith(ps, i, url) && LastWith(ps, url).value == ps[i]
    ensures LastWith(ps, url).None? ==> forall i :: 0 <= i < |ps| ==> ps[i].url != url
    decreases |ps|
  {
    if ps != [] {
      var front := ps[..|ps| - 1];
      LastWithIs(front, url);
      if ps[|ps| - 1].url == url {
        assert IsLastWith(ps, |ps| - 1, url);
      } else if i :| IsLastWith(front, i, url) && LastWith(front, url).value == front[i] {
        assert IsLastWith(ps, i, url);
      }
    }
  }

  /**
   The issues a page is compared with: those of the baseline's last page under its URL or, if there
   is none, under the URL it ended up at; none without such a page.
   */
  lemma PreviousKeysAre(b: Baseline, p: Page, k: string)
    ensures k in PreviousKeys(Some(b), p) <==>
              || (exists i :: IsLastWith(b.pages, i, p.url) && k in b.pages[i].keys)
              || ((forall i :: 0 <= i < |b.pages| ==> b.pages[i].url != p.url)
                  && exists i :: IsLastWith(b.pages, i, p.finalUrl) && k in b.pages[i].keys)
    ensures PreviousKeys(None, p) == []
  {
    LastWithIs(b.pages, p.url);
    LastWithIs(b.pages, p.finalUrl);
    hide LastWith, Distinct;
    var previous := PreviousPage(Some(b), p);
    if previous.Some? {
      DistinctElements(previous.value.keys);
    }
  }

  /** Which findings are one issue: those with the same non-empty key or, if they have none, those of one rule. */
  lemma IssuesAreTold(f: Finding, g: Finding)
    ensures HasKey(f) && HasKey(g) ==> (Key(f) == Key(g) <==> f.normalizedIssueKey == g.normalizedIssueKey)
    ensures !HasKey(f) && !HasKey(g) ==> (Key(f) == Key(g) <==> f.ruleId == g.ruleId)
    ensures HasKey(f) && !HasKey(g) ==> (Key(f) == Key(g) <==> f.normalizedIssueKey == Some(g.ruleId))
  {
  }

  predicate HasKey(f: Finding) {
    f.normalizedIssueKey.Some? && f.normalizedIssueKey.value != ""
  }

  lemma NoRows()
    ensures forall c :: Count([], c) == 0
  {
  }

  // ---- conservation ----

  function Elements(ks: seq<string>): set<string> {
    set k | k in ks
  }

  lemma ElementsAppend(front: seq<string>, k: string)
    ensures Elements(front + [k]) == Elements(front) + {k}
  {
  }

  lemma {:induction false} DistinctElements(ks: seq<string>)
    ensures Elements(Distinct(ks)) == Elements(ks) && |Distinct(ks)| == |Elements(ks)|
    ensures forall k :: k in Distinct(ks) <==> k in ks
    decreases |ks|
  {
    hide Elements;
    if ks == [] {
      ElementsOfNone();
    } else {
      var front, k := ks[..|ks| - 1], ks[|ks| - 1];
      assert ks == front + [k];
      DistinctElements(front);
      ElementsAppend(front, k);
      ElementsAppend(Distinct(front), k);
      ElementsHave(front, k);
    }
  }

  lemma ElementsOfNone()
    ensures Elements([]) == {}
  {
  }

  lemma ElementsHave(ks: seq<string>, k: string)
    ensures k in Elements(ks) <==> k in ks
  {
  }

  lemma {:induction false} DistinctIsDistinct(ks: seq<string>)
    ensures Distinct(Distinct(ks)) == Distinct(ks)
    decreases |ks|
  {
    if ks != [] {
      DistinctIsDistinct(ks[..|ks| - 1]);
      var d := Distinct(ks[..|ks| - 1]);
      assert (d + [ks[|ks| - 1]])[..|d|] == d;
    }
  }

  lemma {:induction false} KeysOfElements(fs: seq<Finding>)
    ensures forall k :: k in KeysOf(fs) <==> exists f :: f in fs && Key(f) == k
    decreases |fs|
  {
    hide Key;
    if fs != [] {
      var front, f := fs[..|fs| - 1], fs[|fs| - 1];
      assert fs == front + [f];
      KeysOfElements(front);
    }
  }

  /** The issue keys that a page's rows report as gone. */
  function GoneKeys(rows: seq<Row>): set<string> {
    set i | 0 <= i < |rows| && rows[i].change == Resolved :: rows[i].ruleId
  }

  function NewKeys(previous: seq<string>, fs: seq<Finding>): set<string> {
    set i | 0 <= i < |fs| && ChangeOf(previous, fs[i]) != Persisting :: Key(fs[i])
  }

  lemma {:induction false} ResolvedAre(previous: seq<string>, current: seq<string>, url: string)
    ensures GoneKeys(ResolvedRows(previous, current, url)) == Elements(previous) - Elements(current)
    decreases |previous|
  {
    hide GoneKeys, Elements;
    if previous == [] {
      ElementsOfNone();
      NothingGone();
    } else {
      var front, k := previous[..|previous| - 1], previous[|previous| - 1];
      assert previous == front + [k];
      ResolvedAre(front, current, url);
      ElementsAppend(front, k);
      ElementsHave(current, k);
      GoneAppend(ResolvedRows(front, current, url), Row(k, Info, Resolved, url));
    }
  }

  lemma NothingGone()
    ensures GoneKeys([]) == {}
  {
  }

  /** Every resolved issue is reported once. */
  lemma {:induction false} ResolvedOnce(previous: seq<string>, current: seq<string>, url: string)
    requires Distinct(previous) == previous
    ensures |ResolvedRows(previous, current, url)| == |Elements(previous) - Elements(current)|
    decreases |previous|
  {
    hide Elements;
    if previous == [] {
      ElementsOfNone();
    } else {
      var front, k := previous[..|previous| - 1], previous[|previous| - 1];
      assert previous == front + [k];
      DistinctFront(front, k);
      ResolvedOnce(front, current, url);
      ElementsAppend(front, k);
      ElementsHave(current, k);
      ElementsHave(front, k);
      var before := Elements(front) - Elements(current);
      assert Elements(previous) - Elements(current) == if k in current then before else before + {k};
    }
  }

  lemma GoneAppend(rows: seq<Row>, row: Row)
    ensures GoneKeys(rows + [row]) == GoneKeys(rows) + if row.change == Resolved then {row.ruleId} else {}
  {
    assert (rows + [row])[|rows|] == row;
    forall k | k in GoneKeys(rows)
      ensures k in GoneKeys(rows + [row])
    {
      var i :| 0 <= i < |rows| && rows[i].change == Resolved && rows[i].ruleId == k;
      assert (rows + [row])[i] == rows[i];
    }
  }

  lemma DistinctFront(front: seq<string>, k: string)
    requires Distinct(front + [k]) == front + [k]
    ensures Distinct(front) == front && k !in front
  {
    assert (front + [k])[..|front|] == front;
    DistinctElements(front);
    DistinctNotLonger(front);
  }

  lemma {:induction false} DistinctNotLonger(ks: seq<string>)
    ensures |Distinct(ks)| <= |ks|
    decreases |ks|
  {
    if ks != [] {
      DistinctNotLonger(ks[..|ks| - 1]);
    }
  }

  lemma NewKeysAre(previous: seq<string>, fs: seq<Finding>)
    ensures NewKeys(previous, fs) == Elements(KeysOf(fs)) - Elements(previous)
  {
    hide Key;
    KeysOfElements(fs);
    forall k | k in KeysOf(fs) && k !in previous
      ensures k in NewKeys(previous, fs)
    {
      var f :| f in fs && Key(f) == k;
      var i :| 0 <= i < |fs| && fs[i] == f;
      assert ChangeOf(previous, fs[i]) != Persisting;
    }
  }

  /** On every page: what is there now is what was there, less what is resolved, and what is new. */
  lemma KeysAreConserved(b: Option<Baseline>, p: Page)
    ensures var previous := PreviousKeys(b, p);
            var gone := GoneKeys(ResolvedRows(previous, CurrentKeys(p), p.url));
            && gone <= Elements(previous)
            && |ResolvedRows(previous, CurrentKeys(p), p.url)| == |gone|
            && NewKeys(previous, p.findings) !! Elements(previous)
            && Elements(CurrentKeys(p)) == (Elements(previous) - gone) + NewKeys(previous, p.findings)
  {
    hide PreviousPage, KeysOf, Elements, GoneKeys, NewKeys, ResolvedRows;
    var previous := PreviousKeys(b, p);
    ResolvedAre(previous, CurrentKeys(p), p.url);
    if PreviousPage(b, p).Some? {
      DistinctIsDistinct(PreviousPage(b, p).value.keys);
    }
    ResolvedOnce(previous, CurrentKeys(p), p.url);
    DistinctElements(KeysOf(p.findings));
    NewKeysAre(previous, p.findings);
  }

  // ---- evaluating the same pages again ----

  lemma {:induction false} ClassifiedCounts(previous: seq<string>, fs: seq<Finding>, url: string)
    ensures var rows := Classified(previous, fs, url);
            && Count(rows, New) + Count(rows, Regressed) + Count(rows, Persisting) == |fs|
            && Count(rows, Resolved) == 0
            && (Count(rows, New) + Count(rows, Regressed) == 0 <==> Elements(KeysOf(fs)) <= Elements(previous))
    decreases |fs|
  {
    hide Key, Elements;
    if fs == [] {
      ElementsOfNone();
    } else {
      var front, f := fs[..|fs| - 1], fs[|fs| - 1];
      ClassifiedCounts(previous, front, url);
      var rows := Classified(previous, front, url);
      assert (rows + [Row(f.ruleId, f.severity, ChangeOf(previous, f), url)])[..|rows|] == rows;
      ElementsAppend(KeysOf(front), Key(f));
      ElementsHave(previous, Key(f));
    }
  }

  lemma NothingLess(a: set<string>, b: set<string>)
    ensures |a - b| == 0 <==> a <= b
  {
    assert a <= b ==> a - b == {};
    assert |a - b| == 0 ==> a - b == {};
    if a - b == {} {
      forall x | x in a
        ensures x in b
      {
        assert x !in a - b;
      }
    }
  }

  lemma PageCounts(b: Option<Baseline>, p: Page)
    ensures var rows, previous, current := PageRows(b, p), Elements(PreviousKeys(b, p)), Elements(KeysOf(p.findings));
            && Count(rows, New) + Count(rows, Regressed) + Count(rows, Persisting) == |p.findings|
            && Count(rows, Resolved) == |previous - current|
            && (Count(rows, New) + Count(rows, Regressed) + Count(rows, Resolved) == 0 <==> previous == current)
  {
    hide PreviousPage, KeysOf, Elements, Classified, ResolvedRows, Count;
    NothingLess(Elements(PreviousKeys(b, p)), Elements(KeysOf(p.findings)));
    var previous, current := PreviousKeys(b, p), CurrentKeys(p);
    ClassifiedCounts(previous, p.findings, p.url);
    ResolvedCounts(previous, current, p.url);
    if PreviousPage(b, p).Some? {
      DistinctIsDistinct(PreviousPage(b, p).value.keys);
    }
    ResolvedOnce(previous, current, p.url);
    DistinctElements(KeysOf(p.findings));
    forall c
      ensures Count(PageRows(b, p), c) == Count(Classified(previous, p.findings, p.url), c)
                                       + Count(ResolvedRows(previous, current, p.url), c)
    {
      CountAppend(Classified(previous, p.findings, p.url), ResolvedRows(previous, current, p.url), c);
    }
  }

  /** A page brings no news against a baseline: its keys are those the baseline holds for it. */
  predicate Quiet(b: Option<Baseline>, p: Page) {
    Elements(PreviousKeys(b, p)) == Elements(KeysOf(p.findings))
  }

  /** New and persisting rows account for every finding; there is no other news exactly when every page is quiet. */
  lemma {:induction false} RowsAccountForFindings(b: Option<Baseline>, pages: seq<Page>)
    ensures var rows := Rows(b, pages);
            && Count(rows, New) + Count(rows, Regressed) + Count(rows, Persisting) == |AllFindings(pages)|
            && (Count(rows, New) + Count(rows, Regressed) + Count(rows, Resolved) == 0 <==> forall p :: p in pages ==> Quiet(b, p))
    decreases |pages|
  {
    hide PageRows, Elements, KeysOf, PreviousKeys, Count;
    if pages == [] {
      NoRows();
    } else {
      var front, p := pages[..|pages| - 1], pages[|pages| - 1];
      assert pages == front + [p];
      RowsAccountForFindings(b, front);
      PageCounts(b, p);
      forall c
        ensures Count(Rows(b, front) + PageRows(b, p), c) == Count(Rows(b, front), c) + Count(PageRows(b, p), c)
      {
        CountAppend(Rows(b, front), PageRows(b, p), c);
      }
      assert (forall q :: q in pages ==> Quiet(b, q)) <==> (forall q :: q in front ==> Quiet(b, q)) && Quiet(b, p);
    }
  }

  /** The baseline a set of pages leaves behind holds, for each of their URLs, the last page with that URL. */
  lemma {:induction false} SnapshotLookup(pages: seq<Page>, p: Page)
    requires p in pages
    ensures exists q :: q in pages && q.url == p.url && LastWith(Snapshots(pages), p.url) == Some(PageSnapshot(q))
    decreases |pages|
  {
    hide PageSnapshot;
    var front, last := pages[..|pages| - 1], pages[|pages| - 1];
    assert pages == front + [last];
    SnapshotUrl(last);
    var before := Snapshots(front);
    assert (before + [PageSnapshot(last)])[..|before|] == before;
    if last.url != p.url {
      SnapshotLookup(front, p);
    }
  }

  lemma SnapshotUrl(p: Page)
    ensures PageSnapshot(p).url == p.url && PageSnapshot(p).keys == CurrentKeys(p)
  {
  }

  /** Pages with one URL show the same issues. */
  predicate Consistent(pages: seq<Page>) {
    forall p, q :: p in pages && q in pages && p.url == q.url ==> Elements(KeysOf(p.findings)) == Elements(KeysOf(q.findings))
  }

  lemma PreviousIsSome(pages: seq<Page>, p: Page)
    requires p in pages
    ensures exists q :: q in pages && q.url == p.url &&
              Elements(PreviousKeys(Some(Snapshot(pages)), p)) == Elements(KeysOf(q.findings))
  {
    hide Elements, KeysOf, Snapshots, PageSnapshot, LastWith, ScoresOf;
    SnapshotLookup(pages, p);
    var q :| q in pages && q.url == p.url && LastWith(Snapshots(pages), p.url) == Some(PageSnapshot(q));
    SnapshotUrl(q);
    DistinctElements(KeysOf(q.findings));
    DistinctElements(CurrentKeys(q));
  }

  /**
   Evaluating pages again against the baseline they just produced moves no score, and reports
   nothing new and nothing resolved exactly when pages that share a URL show the same issues.
   */
  lemma SecondLookIsQuiet(pages: seq<Page>, b: Option<Baseline>)
    ensures var r := Evaluated(pages, Some(Evaluated(pages, b).baseline));
            && r.deltas == Scores(0, 0, 0, 0, 0)
            && (r.newCount + r.resolvedCount == 0 <==> Consistent(pages))
            && (Consistent(pages) ==> r.persistingCount == |AllFindings(pages)|)
  {
    hide Elements, KeysOf, PreviousKeys, Rows, Count, ScoresOf, AllFindings, Snapshots;
    var again := Some(Snapshot(pages));
    RowsAccountForFindings(again, pages);
    if Consistent(pages) {
      forall p | p in pages
        ensures Quiet(again, p)
      {
        PreviousIsSome(pages, p);
      }
    } else {
      var p, q :| p in pages && q in pages && p.url == q.url && Elements(KeysOf(p.findings)) != Elements(KeysOf(q.findings));
      SameUrlSamePrevious(pages, p, q);
      assert !Quiet(again, p) || !Quiet(again, q);
    }
  }

  lemma SameUrlSamePrevious(pages: seq<Page>, p: Page, q: Page)
    requires p in pages && q in pages && p.url == q.url
    ensures PreviousKeys(Some(Snapshot(pages)), p) == PreviousKeys(Some(Snapshot(pages)), q)
  {
    hide Elements, KeysOf, Snapshots, PageSnapshot, LastWith, ScoresOf;
    SnapshotLookup(pages, p);
  }

  /** A crawl never yields two pages with one URL, so its second look is quiet. */
  lemma DistinctUrlsAreConsistent(pages: seq<Page>)
    requires forall i, j :: 0 <= i < j < |pages| ==> pages[i].url != pages[j].url
    ensures Consistent(pages)
  {
  }
}
