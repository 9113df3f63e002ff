/**
 Concurrent monitoring jobs and the versioned baseline. A job reads the configuration when it
 starts and writes when it has evaluated the pages; between the two, other jobs may write.
 The write is a compare-and-set on the version the job was told to expect.
 */
module BaselineProtocol {
  import opened Options
  import opened Findings
  import opened Scoring
  import opened Regression

  /** A running job: the version it expects, and what it saw of the configuration when it started. */
  datatype Job = Job(expected: nat, seenVersion: nat, seen: Option<Baseline>)

  /** One accepted write, with the baseline the job evaluated against, and whether its run's row was completed after it. */
  datatype Accepted = Accepted(against: Option<Baseline>, result: Result, reported: bool)

  datatype State = State(
    version: nat,
    baseline: Option<Baseline>,
    jobs: map<nat, Job>,
    history: seq<Accepted>) // every accepted write, oldest first

  datatype Event =
    | Begin(id: nat, expected: Option<nat>) // the expected version in the job's data, if there is one
    | Finish(id: nat, available: bool, pages: seq<Page>, reported: bool) // a run that throws after its write reports nothing
    | Throw(id: nat)

  function Initial(version: nat, baseline: Option<Baseline>): State {
    State(version, baseline, map[], [])
  }

  predicate Enabled(s: State, e: Event) {
    match e
    // An expected version was read from the configuration at some earlier time.
    case Begin(id, expected) => id !in s.jobs && (expected.Some? ==> expected.value <= s.version)
    case Finish(id, _, _, _) => id in s.jobs
    case Throw(id) => id in s.jobs
  }

  function Apply(s: State, e: Event): State {
    match e
    case Begin(id, expected) =>
      var version := if expected.Some? then expected.value else s.version;
      s.(jobs := s.jobs[id := Job(version, s.version, s.baseline)])
    case Finish(id, available, pages, reported) =>
      if id !in s.jobs then s
      else
        var job := s.jobs[id];
        var r := Evaluated(pages, job.seen);
        var t := s.(jobs := s.jobs - {id});
        if available && s.version == job.expected
        then t.(version := job.expected + 1, baseline := Some(r.baseline),
                history := s.history + [Accepted(job.seen, r, reported)])
        else t
    case Throw(id) => s.(jobs := s.jobs - {id})
  }

  predicate Possible(s: State, es: seq<Event>)
    decreases |es|
  {
    es == [] || (Possible(s, es[..|es| - 1]) && Enabled(Exec(s, es[..|es| - 1]), es[|es| - 1]))
  }

  function Exec(s: State, es: seq<Event>): State
    decreases |es|
  {
    if es == [] then s else Apply(Exec(s, es[..|es| - 1]), es[|es| - 1])
  }

  // ---- the invariant ----

  /** The baseline after the first `i` accepted writes. */
  function BaselineAt(first: Option<Baseline>, history: seq<Accepted>, i: int): Option<Baseline> {
    if 0 < i <= |history| then Some(history[i - 1].result.baseline) else first
  }

  ghost predicate IsEvaluation(a: Accepted) {
    exists pages :: a.result == Evaluated(pages, a.against)
  }

  /** Every accepted write was evaluated against exactly the baseline it replaced. */
  ghost predicate Chained(first: Option<Baseline>, history: seq<Accepted>) {
    forall i :: 0 <= i < |history| ==>
      IsEvaluation(history[i]) && history[i].against == BaselineAt(first, history, i)
  }

  ghost predicate Inv(version: nat, first: Option<Baseline>, s: State) {
    && s.version == version + |s.history|
    && s.baseline == BaselineAt(first, s.history, |s.history|)
    && Chained(first, s.history)
    && forall id :: id in s.jobs ==> JobInv(version, first, s.history, s.jobs[id])
  }

  /** A job saw the baseline that was in force at the version it saw. */
  ghost predicate JobInv(version: nat, first: Option<Baseline>, history: seq<Accepted>, job: Job) {
    && job.expected <= job.seenVersion && version <= job.seenVersion <= version + |history|
    && job.seen == BaselineAt(first, history, job.seenVersion - version)
  }

  lemma JobOutlives(version: nat, first: Option<Baseline>, history: seq<Accepted>, job: Job, a: Accepted)
    requires JobInv(version, first, history, job)
    ensures JobInv(version, first, history + [a], job)
  {
  }

  lemma ChainedAppend(first: Option<Baseline>, history: seq<Accepted>, pages: seq<Page>, reported: bool)
    requires Chained(first, history)
    ensures var against := BaselineAt(first, history, |history|);
            Chained(first, history + [Accepted(against, Evaluated(pages, against), reported)])
  {
    hide Evaluated;
    var against := BaselineAt(first, history, |history|);
    var last := Accepted(against, Evaluated(pages, against), reported);
    assert IsEvaluation(last);
    ChainedOn(first, history, last);
  }

  lemma ChainedOn(first: Option<Baseline>, history: seq<Accepted>, last: Accepted)
    requires Chained(first, history) && IsEvaluation(last) && last.against == BaselineAt(first, history, |history|)
    ensures Chained(first, history + [last])
  {
    hide IsEvaluation;
    var more := history + [last];
    forall i | 0 <= i < |more|
      ensures IsEvaluation(more[i]) && more[i].against == BaselineAt(first, more, i)
    {
      assert i < |history| ==> more[i] == history[i];
      assert BaselineAt(first, more, i) == BaselineAt(first, history, i);
    }
  }

  lemma ChainedPrefix(first: Option<Baseline>, front: seq<Accepted>, last: Accepted)
    requires Chained(first, front + [last])
    ensures Chained(first, front)
    ensures IsEvaluation(last) && last.against == BaselineAt(first, front, |front|)
  {
    hide IsEvaluation;
    var history := front + [last];
    assert history[|front|] == last;
    forall i | 0 <= i < |front|
      ensures IsEvaluation(front[i]) && front[i].against == BaselineAt(first, front, i)
    {
      assert front[i] == history[i];
    }
  }

  lemma AcceptStep(s: State, e: Event)
    requires Enabled(s, e) && e.Finish? && e.available && s.version == s.jobs[e.id].expected
    ensures var a := Accepted(s.jobs[e.id].seen, Evaluated(e.pages, s.jobs[e.id].seen), e.reported);
            Apply(s, e) == State(s.version + 1, Some(a.result.baseline), s.jobs - {e.id}, s.history + [a])
  {
    hide Evaluated;
  }

  /** One more accepted write, evaluated against the baseline in force. */
  lemma AppendKeeps(version: nat, first: Option<Baseline>, s: State, id: nat, a: Accepted)
    requires Inv(version, first, s) && Chained(first, s.history + [a])
    ensures Inv(version, first, State(s.version + 1, Some(a.result.baseline), s.jobs - {id}, s.history + [a]))
  {
    hide Chained, JobInv;
    var more := s.history + [a];
    assert BaselineAt(first, more, |more|) == Some(a.result.baseline);
    forall i | i in s.jobs
      ensures JobInv(version, first, more, s.jobs[i])
    {
      JobOutlives(version, first, s.history, s.jobs[i], a);
    }
  }

  lemma ExpectedSawIt(version: nat, first: Option<Baseline>, s: State, id: nat)
    requires Inv(version, first, s) && id in s.jobs && s.version == s.jobs[id].expected
    ensures s.jobs[id].seen == BaselineAt(first, s.history, |s.history|) && Chained(first, s.history)
  {
    hide Chained;
    assert JobInv(version, first, s.history, s.jobs[id]);
  }

  lemma AcceptKeeps(version: nat, first: Option<Baseline>, s: State, e: Event)
    requires Inv(version, first, s) && Enabled(s, e) && e.Finish? && e.available
    requires s.version == s.jobs[e.id].expected
    ensures Inv(version, first, Apply(s, e))
  {
    hide Evaluated, Chained, Apply, Inv;
    var job := s.jobs[e.id];
    AcceptStep(s, e);
    ExpectedSawIt(version, first, s, e.id);
    ChainedAppend(first, s.history, e.pages, e.reported);
    AppendKeeps(version, first, s, e.id, Accepted(job.seen, Evaluated(e.pages, job.seen), e.reported));
  }

  lemma ApplyKeeps(version: nat, first: Option<Baseline>, s: State, e: Event)
    requires Inv(version, first, s) && Enabled(s, e)
    ensures Inv(version, first, Apply(s, e))
  {
    hide Evaluated, Chained;
    if e.Finish? && e.available && s.version == s.jobs[e.id].expected {
      hide Inv, Apply;
      AcceptKeeps(version, first, s, e);
    }
  }

  lemma {:induction false} ExecKeeps(version: nat, first: Option<Baseline>, es: seq<Event>)
    requires Possible(Initial(version, first), es)
    ensures Inv(version, first, Exec(Initial(version, first), es))
    decreases |es|
  {
    hide Apply, Enabled;
    if es != [] {
      ExecKeeps(version, first, es[..|es| - 1]);
      ApplyKeeps(version, first, Exec(Initial(version, first), es[..|es| - 1]), es[|es| - 1]);
    }
  }

  /**
   Whatever the interleaving and however stale the expected versions: the version counts the
   accepted writes, and each of them was evaluated against the very baseline it replaced.
   */
  lemma AcceptedWritesFormAChain(version: nat, first: Option<Baseline>, es: seq<Event>)
    requires Possible(Initial(version, first), es)
    ensures var s := Exec(Initial(version, first), es);
            && s.version == version + |s.history|
            && s.baseline == BaselineAt(first, s.history, |s.history|)
            && Chained(first, s.history)
  {
    ExecKeeps(version, first, es);
  }

  // ---- which writes are accepted ----

  predicate EndsJob(e: Event, id: nat) {
    (e.Finish? || e.Throw?) && e.id == id
  }

  lemma VersionGrows(s: State, e: Event, id: nat)
    requires Enabled(s, e) && id in s.jobs && !EndsJob(e, id)
    ensures var t := Apply(s, e);
            && id in t.jobs && t.jobs[id] == s.jobs[id]
            && t.version >= s.version && t.version - s.version == |t.history| - |s.history|
  {
    hide Evaluated;
  }

  lemma {:induction false} JobWaits(s: State, es: seq<Event>, id: nat)
    requires Possible(s, es) && id in s.jobs && forall e :: e in es ==> !EndsJob(e, id)
    ensures var t := Exec(s, es);
            && id in t.jobs && t.jobs[id] == s.jobs[id]
            && t.version >= s.version && t.version - s.version == |t.history| - |s.history|
    decreases |es|
  {
    hide Apply, Enabled;
    if es != [] {
      JobWaits(s, es[..|es| - 1], id);
      VersionGrows(Exec(s, es[..|es| - 1]), es[|es| - 1], id);
    }
  }

  /**
   Over any run between a job's beginning and its end: its write is accepted exactly if it found the
   site available, expected the version that was in force when it began, and no other write was
   accepted meanwhile. What is written then are its own pages; otherwise nothing is.
   */
  lemma JobIsAcceptedIff(s: State, id: nat, expected: Option<nat>, es: seq<Event>, available: bool, pages: seq<Page>,
                         reported: bool)
    requires Enabled(s, Begin(id, expected)) && Possible(Apply(s, Begin(id, expected)), es)
    requires forall e :: e in es ==> !EndsJob(e, id)
    ensures var t := Exec(Apply(s, Begin(id, expected)), es);
            var u := Apply(t, Finish(id, available, pages, reported));
            var accepted := available && |t.history| == |s.history| && (expected.None? || expected.value == s.version);
            && u.version == (if accepted then t.version + 1 else t.version)
            && u.baseline == (if accepted then Some(Snapshot(pages)) else t.baseline)
            && |u.history| == |t.history| + (if accepted then 1 else 0)
            && u.jobs == t.jobs - {id}
  {
    hide Exec, Possible, Snapshot, Rows;
    JobWaits(Apply(s, Begin(id, expected)), es, id);
  }

  // ---- score deltas add up ----

  function Plus(a: Scores, b: Scores): Scores {
    Scores(a.lead + b.lead, a.advertising + b.advertising, a.seo + b.seo, a.security + b.security, a.overall + b.overall)
  }

  function DeltaSum(history: seq<Accepted>): Scores
    decreases |history|
  {
    if history == [] then Scores(0, 0, 0, 0, 0)
    else Plus(DeltaSum(history[..|history| - 1]), history[|history| - 1].result.deltas)
  }

  /** The deltas of the accepted writes whose runs did, or did not, report them. */
  function DeltasOf(history: seq<Accepted>, reported: bool): Scores
    decreases |history|
  {
    if history == [] then Scores(0, 0, 0, 0, 0)
    else
      var front, last := DeltasOf(history[..|history| - 1], reported), history[|history| - 1];
      if last.reported == reported then Plus(front, last.result.deltas) else front
  }

  lemma {:induction false} DeltasSplit(history: seq<Accepted>)
    ensures DeltaSum(history) == Plus(DeltasOf(history, true), DeltasOf(history, false))
    decreases |history|
  {
    if history != [] {
      DeltasSplit(history[..|history| - 1]);
    }
  }

  lemma EvaluatedDeltas(pages: seq<Page>, b: Option<Baseline>)
    ensures var r := Evaluated(pages, b);
            r.scores == r.baseline.scores && r.deltas == Minus(r.baseline.scores, PreviousScores(b, r.baseline.scores))
  {
  }

  /** The scores before the first accepted write: those of the first baseline, or else of the first write. */
  function BaseScores(first: Option<Baseline>, history: seq<Accepted>): Scores
    requires history != []
  {
    PreviousScores(first, history[0].result.baseline.scores)
  }

  lemma {:induction false} DeltasTelescope(first: Option<Baseline>, history: seq<Accepted>)
    requires Chained(first, history) && history != []
    ensures DeltaSum(history) == Minus(history[|history| - 1].result.baseline.scores, BaseScores(first, history))
    decreases |history|
  {
    hide Evaluated, Chained;
    var front, last := history[..|history| - 1], history[|history| - 1];
    assert history == front + [last];
    ChainedPrefix(first, front, last);
    var pages :| last.result == Evaluated(pages, last.against);
    EvaluatedDeltas(pages, last.against);
    if front != [] {
      DeltasTelescope(first, front);
    }
  }

  /**
   The deltas that runs with an accepted write report add up to the way the scores have gone less
   the deltas of those that threw after their write: so to all of it exactly if what was lost adds
   up to nothing.
   */
  lemma ReportedDeltasAddUp(version: nat, first: Option<Baseline>, es: seq<Event>)
    requires Possible(Initial(version, first), es)
    ensures var s := Exec(Initial(version, first), es);
            s.history != [] ==>
              && s.baseline.Some?
              && var way := Minus(s.baseline.value.scores, BaseScores(first, s.history));
              && DeltasOf(s.history, true) == Minus(way, DeltasOf(s.history, false))
              && (DeltasOf(s.history, true) == way <==> DeltasOf(s.history, false) == Scores(0, 0, 0, 0, 0))
  {
    hide Possible, Exec, Chained, Evaluated;
    ExecKeeps(version, first, es);
    var s := Exec(Initial(version, first), es);
    if s.history != [] {
      DeltasTelescope(first, s.history);
      DeltasSplit(s.history);
      hide DeltaSum, DeltasOf;
    }
  }

  lemma EvaluatedBaseline(pages: seq<Page>, b: Option<Baseline>)
    ensures Evaluated(pages, b).baseline == Snapshot(pages)
  {
    hide Rows, Snapshot;
  }

  // ---- the configuration row ----

  /** The columns of a monitoring configuration that a job's last update writes. */
  class ConfigRow {
    var version: nat
    var baseline: Option<Baseline>
    var consecutiveFailures: nat
    var locked: bool

    constructor (version: nat, baseline: Option<Baseline>)
      ensures this.version == version && this.baseline == baseline && consecutiveFailures == 0 && !locked
    {
      this.version, this.baseline, consecutiveFailures, locked := version, baseline, 0, false;
    }

    /** The conditional update: it matches the row only while the version is the expected one. */
    method UpdateWhere(expected: nat, b: Baseline, failures: nat) returns (count: nat)
      modifies this
      ensures count == if old(version) == expected then 1 else 0
      ensures count == 1 ==> version == expected + 1 && baseline == Some(b) && consecutiveFailures == failures && !locked
      ensures count == 0 ==> version == old(version) && baseline == old(baseline)
                             && consecutiveFailures == old(consecutiveFailures) && locked == old(locked)
    {
      if version != expected {
        return 0;
      }
      version, baseline, consecutiveFailures, locked := expected + 1, Some(b), failures, false;
      count := 1;
    }

    method Update(failures: nat)
      modifies this
      ensures version == old(version) && baseline == old(baseline) && consecutiveFailures == failures && !locked
    {
      consecutiveFailures, locked := failures, false;
    }

    /** The end of a job that did not throw: version and baseline move as the protocol's step says. */
    method FinishJob(job: Job, seenFailures: nat, available: bool, pages: seq<Page>, ghost s: State, ghost id: nat,
                     ghost reported: bool)
      requires id in s.jobs && s.jobs[id] == job && s.version == version && s.baseline == baseline
      modifies this
      ensures version == Apply(s, Finish(id, available, pages, reported)).version
      ensures baseline == Apply(s, Finish(id, available, pages, reported)).baseline
      ensures version == if available && old(version) == job.expected then old(version) + 1 else old(version)
      ensures baseline == if available && old(version) == job.expected then Some(Snapshot(pages)) else old(baseline)
      ensures consecutiveFailures == (if available then 0 else seenFailures + 1) && !locked
    {
      EvaluatedBaseline(pages, job.seen);
      hide Evaluated, Snapshot;
      var evaluation := Evaluate(pages, job.seen);
      var failures := if available then 0 else seenFailures + 1;
      if available {
        var count := UpdateWhere(job.expected, evaluation.baseline, failures);
        if count == 0 {
          Update(failures);
        }
      } else {
        Update(failures);
      }
    }
  }
}
