/**
 Executions of one audit: workers claim it, crash, go stale, are cancelled and finalise. Each
 conditional update and each transaction is one atomic step. Times are in milliseconds, and all
 workers run with the same global timeout.
 */
module AuditClaim {
  import opened Options
  import opened Findings
  import opened Scoring

  const GRACE := 30_000

  datatype Status = Queued | Running | Completed | Partial | Failed | Cancelled

  /**
   Where an attempt stands. It has a run row and is about to claim; executes since its claim;
   was turned down and is about to close its run row. A crashed attempt has just stopped.
   */
  datatype Phase = Claiming | Executing(since: nat) | Rejecting | Rejected | Finished | Crashed

  /** An attempt and the status of its run row. */
  datatype Attempt = Attempt(phase: Phase, run: Status)

  datatype Report = Report(findings: seq<Finding>, scores: Scores)

  datatype State = State(
    now: nat,
    status: Status,
    startedAt: Option<nat>,
    report: Option<Report>,
    attempts: map<nat, Attempt>,
    started: seq<nat>) // the attempts that recorded AUDIT_STARTED, oldest first

  datatype Event =
    | Tick(millis: nat)
    | Begin(attempt: nat)
    | Claim(attempt: nat)
    | CloseRejected(attempt: nat)
    | Finalize(attempt: nat, status: Status, report: Report)
    | Abort(attempt: nat)
    | Crash(attempt: nat)
    | Cancel

  function Created(now: nat): State {
    State(now, Queued, None, None, map[], [])
  }

  predicate At(s: State, attempt: nat, phase: Phase) {
    attempt in s.attempts && s.attempts[attempt].phase == phase
  }

  predicate IsExecuting(s: State, attempt: nat) {
    attempt in s.attempts && s.attempts[attempt].phase.Executing?
  }

  /** An execution ends within the timeout and the grace of its claim: time does not pass beyond that. */
  ghost predicate InTime(s: State, timeout: nat) {
    forall a :: IsExecuting(s, a) ==> s.now <= s.attempts[a].phase.since + timeout + GRACE
  }

  predicate Enabled(s: State, e: Event) {
    match e
    case Tick(_) => true
    case Begin(a) => a !in s.attempts
    case Claim(a) => At(s, a, Claiming)
    case CloseRejected(a) => At(s, a, Rejecting)
    case Finalize(a, status, _) => IsExecuting(s, a) && (status == Completed || status == Partial || status == Failed)
    case Abort(a) => IsExecuting(s, a)
    case Crash(a) => At(s, a, Claiming) || IsExecuting(s, a) || At(s, a, Rejecting)
    case Cancel => true
  }

  /** The condition of the claiming update. A row without a start time is not stale. */
  predicate IsClaimable(s: State, timeout: nat) {
    && s.status != Cancelled
    && (s.status != Running || (s.startedAt.Some? && s.startedAt.value + timeout + GRACE < s.now))
  }

  function Apply(s: State, e: Event, timeout: nat): State
    requires Enabled(s, e)
  {
    match e
    case Tick(n) => s.(now := s.now + n)
    case Begin(a) => s.(attempts := s.attempts[a := Attempt(Claiming, Running)])
    case Claim(a) =>
      if IsClaimable(s, timeout)
      then s.(status := Running, startedAt := Some(s.now), started := s.started + [a],
              attempts := s.attempts[a := Attempt(Executing(s.now), s.attempts[a].run)])
      else s.(attempts := s.attempts[a := Attempt(Rejecting, s.attempts[a].run)])
    case CloseRejected(a) => s.(attempts := s.attempts[a := Attempt(Rejected, Cancelled)])
    case Finalize(a, status, report) =>
      if s.status == Cancelled then s.(attempts := s.attempts[a := Attempt(Finished, Cancelled)])
      else s.(status := status, report := Some(report), attempts := s.attempts[a := Attempt(Finished, status)])
    // The worker is shut down: its run is closed, the audit is left running.
    case Abort(a) => s.(attempts := s.attempts[a := Attempt(Finished, Cancelled)])
    case Crash(a) => s.(attempts := s.attempts[a := Attempt(Crashed, s.attempts[a].run)])
    case Cancel => if s.status == Queued || s.status == Running then s.(status := Cancelled) else s
  }

  predicate Possible(s: State, es: seq<Event>, timeout: nat)
    decreases |es|
  {
    es == [] || (Enabled(s, es[0]) && Possible(Apply(s, es[0], timeout), es[1..], timeout))
  }

  function Exec(s: State, es: seq<Event>, timeout: nat): State
    requires Possible(s, es, timeout)
    decreases |es|
  {
    if es == [] then s else Exec(Apply(s, es[0], timeout), es[1..], timeout)
  }

  /** Every execution along the way is in time. */
  ghost predicate AllInTime(s: State, es: seq<Event>, timeout: nat)
    requires Possible(s, es, timeout)
    decreases |es|
  {
    InTime(s, timeout) && (es == [] || AllInTime(Apply(s, es[0], timeout), es[1..], timeout))
  }

  // ---- cancelling is final ----

  /** After a cancellation nothing changes the status, the findings or the scores any more. */
  lemma {:induction false} CancelledIsFinal(s: State, es: seq<Event>, timeout: nat)
    requires Possible(s, es, timeout) && s.status == Cancelled
    ensures Exec(s, es, timeout).status == Cancelled && Exec(s, es, timeout).report == s.report
    decreases |es|
  {
    if es != [] {
      CancelledStays(s, es[0], timeout);
      hide Apply, Enabled;
      CancelledIsFinal(Apply(s, es[0], timeout), es[1..], timeout);
    }
  }

  lemma CancelledStays(s: State, e: Event, timeout: nat)
    requires Enabled(s, e) && s.status == Cancelled
    ensures Apply(s, e, timeout).status == Cancelled && Apply(s, e, timeout).report == s.report
    ensures e.Claim? ==> At(Apply(s, e, timeout), e.attempt, Rejecting)
  {
  }

  // ---- bookkeeping, whatever the timing ----

  /** Who has been accepted has recorded the start once; who was turned down has a closed run. */
  ghost predicate Booked(attempts: map<nat, Attempt>, started: seq<nat>) {
    && (forall a :: a in attempts ==> Entry(attempts[a], multiset(started)[a]))
    && (forall a :: a in started ==> a in attempts)
  }

  predicate Entry(x: Attempt, starts: nat) {
    match x.phase
    case Claiming => starts == 0 && x.run == Running
    case Executing(_) => starts == 1 && x.run == Running
    case Rejecting => starts == 0 && x.run == Running
    case Rejected => starts == 0 && x.run == Cancelled
    case Finished => starts == 1 && x.run != Running && x.run != Queued
    case Crashed => starts <= 1 && x.run == Running
  }

  ghost predicate HasStart(s: State) {
    && (s.status == Running ==> s.startedAt.Some?)
    && (s.startedAt.Some? ==> s.startedAt.value <= s.now)
  }

  lemma MoveBooked(attempts: map<nat, Attempt>, started: seq<nat>, a: nat, x: Attempt, starts: seq<nat>)
    requires Booked(attempts, started) && (starts == [] || starts == [a])
    requires Entry(x, multiset(started)[a] + |starts|)
    ensures Booked(attempts[a := x], started + starts)
  {
    hide Entry;
    assert started + [] == started;
    forall b | b in attempts && b != a
      ensures multiset(started + starts)[b] == multiset(started)[b]
    {
    }
  }

  lemma StartKept(s: State, e: Event, timeout: nat)
    requires HasStart(s) && Enabled(s, e)
    ensures HasStart(Apply(s, e, timeout))
  {
  }

  lemma BookKept(s: State, e: Event, timeout: nat)
    requires Booked(s.attempts, s.started) && Enabled(s, e)
    ensures Booked(Apply(s, e, timeout).attempts, Apply(s, e, timeout).started)
  {
    var t := Apply(s, e, timeout);
    match e
    case Tick(_) =>
    case Cancel =>
    case Begin(a) =>
      MoveBooked(s.attempts, s.started, a, t.attempts[a], []);
      assert s.started + [] == s.started;
    case _ =>
      var a := e.attempt;
      assert Entry(s.attempts[a], multiset(s.started)[a]);
      hide Booked;
      assert s.started + [] == s.started;
      MoveBooked(s.attempts, s.started, a, t.attempts[a], if e.Claim? && IsClaimable(s, timeout) then [a] else []);
  }

  lemma {:induction false} BooksHold(s: State, es: seq<Event>, timeout: nat)
    requires Possible(s, es, timeout) && Booked(s.attempts, s.started) && HasStart(s)
    ensures var t := Exec(s, es, timeout); Booked(t.attempts, t.started) && HasStart(t)
    decreases |es|
  {
    if es != [] {
      BookKept(s, es[0], timeout);
      StartKept(s, es[0], timeout);
      hide Apply, Enabled, Booked, HasStart;
      BooksHold(Apply(s, es[0], timeout), es[1..], timeout);
    }
  }

  /**
   However attempts are delivered twice, crash and are cancelled: an attempt has recorded
   AUDIT_STARTED once if its claim was accepted and never otherwise, and an attempt that was turned
   down and lived to close its run has it cancelled.
   */
  lemma ClaimsAreOnTheBooks(now: nat, es: seq<Event>, timeout: nat, a: nat)
    requires Possible(Created(now), es, timeout) && a in Exec(Created(now), es, timeout).attempts
    ensures var s := Exec(Created(now), es, timeout);
            var x, starts := s.attempts[a], multiset(s.started)[a];
            && starts <= 1
            && (x.phase.Executing? || x.phase == Finished ==> starts == 1)
            && (x.phase == Claiming || x.phase == Rejecting || x.phase == Rejected ==> starts == 0)
            && (x.phase == Rejected ==> x.run == Cancelled)
  {
    hide Exec, Possible;
    BooksHold(Created(now), es, timeout);
    var s := Exec(Created(now), es, timeout);
    assert Entry(s.attempts[a], multiset(s.started)[a]);
  }

  // ---- which claims are accepted ----

  /** The time of the last claim that made its attempt execute. */
  function LastAccepted(s: State, es: seq<Event>, timeout: nat, before: Option<nat>): Option<nat>
    requires Possible(s, es, timeout)
    decreases |es|
  {
    if es == [] then before
    else
      var t := Apply(s, es[0], timeout);
      LastAccepted(t, es[1..], timeout, if es[0].Claim? && IsExecuting(t, es[0].attempt) then Some(s.now) else before)
  }

  lemma StartIsLastClaim(s: State, e: Event, timeout: nat)
    requires Enabled(s, e)
    ensures var t := Apply(s, e, timeout);
            t.startedAt == if e.Claim? && IsExecuting(t, e.attempt) then Some(s.now) else s.startedAt
  {
  }

  lemma {:induction false} LastAcceptedIsStart(s: State, es: seq<Event>, timeout: nat)
    requires Possible(s, es, timeout)
    ensures LastAccepted(s, es, timeout, s.startedAt) == Exec(s, es, timeout).startedAt
    decreases |es|
  {
    if es != [] {
      StartIsLastClaim(s, es[0], timeout);
      hide Apply, Enabled;
      LastAcceptedIsStart(Apply(s, es[0], timeout), es[1..], timeout);
    }
  }

  /**
   Over every run: a claim is accepted at any time while the audit is queued or has ended, however
   it ended, and never once it is cancelled. While the audit is running it is accepted exactly if
   the last accepted claim lies back more than the timeout and half a minute.
   */
  lemma WhoMayClaim(now: nat, es: seq<Event>, timeout: nat, a: nat)
    requires Possible(Created(now), es, timeout) && At(Exec(Created(now), es, timeout), a, Claiming)
    ensures var s, last := Exec(Created(now), es, timeout), LastAccepted(Created(now), es, timeout, None);
            var accepted := IsExecuting(Apply(s, Claim(a), timeout), a);
            match s.status
            case Queued => accepted
            case Completed => accepted
            case Partial => accepted
            case Failed => accepted
            case Cancelled => !accepted
            case Running => last.Some? && (accepted <==> last.value + timeout + 30_000 < s.now)
  {
    LastAcceptedIsStart(Created(now), es, timeout);
    BooksHold(Created(now), es, timeout);
    hide Exec, Possible, LastAccepted, Booked;
  }

  // ---- one execution at a time ----

  /** An execution is the one that made the last claim, and the audit is running or cancelled. */
  ghost predicate OwnerInv(s: State) {
    && (forall a :: IsExecuting(s, a) ==> Owns(s, a))
    && (forall a, b :: IsExecuting(s, a) && IsExecuting(s, b) ==> a == b)
  }

  predicate Owns(s: State, a: nat)
    requires IsExecuting(s, a)
  {
    s.startedAt == Some(s.attempts[a].phase.since) && (s.status == Running || s.status == Cancelled)
  }

  /** No two executions. */
  ghost predicate IsAlone(s: State) {
    forall a, b :: IsExecuting(s, a) && IsExecuting(s, b) ==> a == b
  }

  /** The execution is past its timeout and grace. */
  predicate IsOverdue(s: State, a: nat, timeout: nat) {
    IsExecuting(s, a) && s.attempts[a].phase.since + timeout + GRACE < s.now
  }

  /** A claim of an audit that is not cancelled, beside an overdue execution. */
  ghost predicate Overtakes(s: State, e: Event, timeout: nat) {
    e.Claim? && s.status != Cancelled && exists a :: IsOverdue(s, a, timeout)
  }

  lemma StaysOwned(s: State, e: Event, timeout: nat)
    requires OwnerInv(s) && Enabled(s, e) && !Overtakes(s, e, timeout)
    ensures OwnerInv(Apply(s, e, timeout))
  {
    var t := Apply(s, e, timeout);
    forall a | IsExecuting(t, a)
      ensures Owns(t, a)
      ensures IsExecuting(s, a) || e == Claim(a)
      ensures e.Claim? && IsExecuting(t, e.attempt) ==> a == e.attempt
    {
      if IsExecuting(s, a) {
        assert Owns(s, a);
        assert e.Claim? ==> s.status == Cancelled || !IsOverdue(s, a, timeout);
      }
    }
  }

  lemma OvertakenIsNotAlone(s: State, e: Event, timeout: nat)
    requires OwnerInv(s) && Enabled(s, e) && Overtakes(s, e, timeout)
    ensures !IsAlone(Apply(s, e, timeout))
  {
    var a :| IsOverdue(s, a, timeout);
    assert Owns(s, a);
    var t := Apply(s, e, timeout);
    assert IsExecuting(t, a) && IsExecuting(t, e.attempt) && a != e.attempt;
  }

  /** In no state along the way are there two executions. */
  ghost predicate AlwaysAlone(s: State, es: seq<Event>, timeout: nat)
    requires Possible(s, es, timeout)
    decreases |es|
  {
    IsAlone(s) && (es == [] || AlwaysAlone(Apply(s, es[0], timeout), es[1..], timeout))
  }

  /** No claim along the way is made, uncancelled, beside an overdue execution. */
  ghost predicate NeverOvertakes(s: State, es: seq<Event>, timeout: nat)
    requires Possible(s, es, timeout)
    decreases |es|
  {
    es == [] || (!Overtakes(s, es[0], timeout) && NeverOvertakes(Apply(s, es[0], timeout), es[1..], timeout))
  }

  lemma {:induction false} AloneUnlessOvertaken(s: State, es: seq<Event>, timeout: nat)
    requires Possible(s, es, timeout) && OwnerInv(s)
    ensures AlwaysAlone(s, es, timeout) <==> NeverOvertakes(s, es, timeout)
    ensures NeverOvertakes(s, es, timeout) ==> OwnerInv(Exec(s, es, timeout))
    decreases |es|
  {
    assert IsAlone(s);
    hide Apply, Enabled, OwnerInv, IsAlone, Overtakes;
    if es != [] {
      var t := Apply(s, es[0], timeout);
      if Overtakes(s, es[0], timeout) {
        OvertakenIsNotAlone(s, es[0], timeout);
        NotAloneThen(t, es[1..], timeout);
      } else {
        StaysOwned(s, es[0], timeout);
        AloneUnlessOvertaken(t, es[1..], timeout);
      }
    }
  }

  lemma NotAloneThen(s: State, es: seq<Event>, timeout: nat)
    requires Possible(s, es, timeout) && !IsAlone(s)
    ensures !AlwaysAlone(s, es, timeout)
  {
  }

  /**
   An audit never has two executions at once, over any run, exactly if no claim is made, uncancelled,
   beside an execution that is past its timeout and grace.
   */
  lemma OneExecutionIff(now: nat, es: seq<Event>, timeout: nat)
    requires Possible(Created(now), es, timeout)
    ensures AlwaysAlone(Created(now), es, timeout) <==> NeverOvertakes(Created(now), es, timeout)
  {
    AloneUnlessOvertaken(Created(now), es, timeout);
  }

  lemma {:induction false} InTimeNeverOvertakes(s: State, es: seq<Event>, timeout: nat)
    requires Possible(s, es, timeout) && AllInTime(s, es, timeout)
    ensures NeverOvertakes(s, es, timeout)
    decreases |es|
  {
    assert forall a :: !IsOverdue(s, a, timeout);
    if es != [] {
      hide Apply, Enabled, InTime, IsOverdue;
      InTimeNeverOvertakes(Apply(s, es[0], timeout), es[1..], timeout);
    }
  }

  /** So if every execution ends in time, an audit never has two executions at once. */
  lemma OneExecutionAtATime(now: nat, es: seq<Event>, timeout: nat, a: nat, b: nat)
    requires Possible(Created(now), es, timeout) && AllInTime(Created(now), es, timeout)
    requires IsExecuting(Exec(Created(now), es, timeout), a) && IsExecuting(Exec(Created(now), es, timeout), b)
    ensures a == b
  {
    hide Exec, Possible, AllInTime, NeverOvertakes, AlwaysAlone;
    InTimeNeverOvertakes(Created(now), es, timeout);
    AloneUnlessOvertaken(Created(now), es, timeout);
  }

  /**
   In every state reached without such a claim, a claim beside a live execution is accepted exactly
   if that is overdue and the audit is not cancelled; then both execute.
   */
  lemma ClaimBesideAnExecution(now: nat, es: seq<Event>, timeout: nat, a: nat, b: nat)
    requires Possible(Created(now), es, timeout) && NeverOvertakes(Created(now), es, timeout)
    requires var s := Exec(Created(now), es, timeout); IsExecuting(s, a) && At(s, b, Claiming)
    ensures var s := Exec(Created(now), es, timeout);
            var t := Apply(s, Claim(b), timeout);
            && (IsExecuting(t, b) <==> s.status != Cancelled && IsOverdue(s, a, timeout))
            && IsExecuting(t, a) && a != b
  {
    AloneUnlessOvertaken(Created(now), es, timeout);
    hide Exec, Possible, NeverOvertakes, AlwaysAlone;
    assert Owns(Exec(Created(now), es, timeout), a);
  }

  /** It comes to that: one attempt overruns, the next one is accepted, and the audit has two executions. */
  lemma LateExecutionIsJoined(now: nat, timeout: nat)
    ensures var es := [Begin(1), Claim(1), Tick(timeout + GRACE + 1), Begin(2), Claim(2)];
            && Possible(Created(now), es, timeout)
            && IsExecuting(Exec(Created(now), es, timeout), 1) && IsExecuting(Exec(Created(now), es, timeout), 2)
  {
    var es := [Begin(1), Claim(1), Tick(timeout + GRACE + 1), Begin(2), Claim(2)];
    var s1 := Apply(Created(now), es[0], timeout);
    var s2 := Apply(s1, es[1], timeout);
    var s3 := Apply(s2, es[2], timeout);
    var s4 := Apply(s3, es[3], timeout);
    var s5 := Apply(s4, es[4], timeout);
    assert IsExecuting(s5, 1) && IsExecuting(s5, 2);
    var f1, f2, f3, f4 := es[1..], es[2..], es[3..], es[4..];
    assert f1[1..] == f2 && f2[1..] == f3 && f3[1..] == f4 && f4[1..] == [];
    assert Possible(s5, [], timeout) && Exec(s5, [], timeout) == s5;
    assert Possible(s4, f4, timeout) && Exec(s4, f4, timeout) == s5;
    assert Possible(s3, f3, timeout) && Exec(s3, f3, timeout) == s5;
    assert Possible(s2, f2, timeout) && Exec(s2, f2, timeout) == s5;
    assert Possible(s1, f1, timeout) && Exec(s1, f1, timeout) == s5;
  }

  /**
   Whatever happened before, and in particular after a crash: unless the audit is cancelled, an
   attempt that waits out the timeout and the grace is accepted.
   */
  lemma CrashedAuditsAreReclaimed(now: nat, es: seq<Event>, timeout: nat, a: nat)
    requires Possible(Created(now), es, timeout)
    requires var s := Exec(Created(now), es, timeout); s.status != Cancelled && At(s, a, Claiming)
    ensures var waited := Apply(Exec(Created(now), es, timeout), Tick(timeout + GRACE + 1), timeout);
            At(Apply(waited, Claim(a), timeout), a, Executing(waited.now))
  {
    hide Exec, Possible;
    BooksHold(Created(now), es, timeout);
  }
}
