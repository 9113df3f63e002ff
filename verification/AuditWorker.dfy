/** The worker's and the API's statements on an audit, each tied to its step of the protocol. */
module AuditWorker {
  import opened Options
  import opened Findings
  import opened Scoring
  import opened AuditClaim

  class AuditRow {
    var now: nat
    var status: Status
    var startedAt: Option<nat>
    var findings: seq<Finding>
    var scores: Option<Scores>
    var attempts: map<nat, Attempt>
    var started: seq<nat>

    /** Findings and scores are written together. */
    ghost predicate Valid()
      reads this
    {
      scores == None ==> findings == []
    }

    ghost function Model(): State
      reads this
    {
      State(now, status, startedAt, if scores.Some? then Some(Report(findings, scores.value)) else None, attempts, started)
    }

    constructor (now: nat)
      ensures Valid() && Model() == Created(now)
    {
      this.now, status, startedAt, findings, scores, attempts, started := now, Queued, None, [], None, map[], [];
    }

    /** Creates the attempt's run row, claims the audit, and closes the row if the claim is turned down. */
    method Start(attempt: nat, timeout: nat) returns (accepted: bool)
      requires Valid() && attempt !in attempts
      modifies this
      ensures Valid()
      ensures old(status) == Queued || old(status) == Completed || old(status) == Partial || old(status) == Failed ==> accepted
      ensures old(status) == Cancelled ==> !accepted
      ensures old(status) == Running ==>
                (accepted <==> old(startedAt).Some? && old(startedAt).value + timeout + 30_000 < now)
      ensures accepted ==> status == Running && startedAt == Some(now) && started == old(started) + [attempt]
      ensures !accepted ==> status == old(status) && startedAt == old(startedAt) && started == old(started)
      ensures accepted <==> old(IsClaimable(Model(), timeout))
      ensures var begun := Apply(old(Model()), Begin(attempt), timeout);
              var claimed := Apply(begun, Claim(attempt), timeout);
              Model() == if accepted then claimed else Apply(claimed, CloseRejected(attempt), timeout)
    {
      attempts := attempts[attempt := Attempt(Claiming, Running)];
      var staleBefore := now - timeout - GRACE;
      accepted := status != Cancelled
      && (status != Running || (startedAt.Some? && startedAt.value < staleBefore));
      if !accepted {
        attempts := attempts[attempt := Attempt(Rejected, Cancelled)];
        assert attempts == Apply(Apply(Apply(old(Model()), Begin(attempt), timeout), Claim(attempt), timeout),
                                 CloseRejected(attempt), timeout).attempts;
        return;
      }
      status, startedAt, started := Running, Some(now), started + [attempt];
      attempts := attempts[attempt := Attempt(Executing(now), Running)];
    }

    /** One transaction: respects a cancellation, or replaces findings, scores and status together. */
    method FinalizeAudit(attempt: nat, outcome: Status, fs: seq<Finding>, ss: Scores, timeout: nat) returns (written: bool)
      requires Valid() && Enabled(Model(), Finalize(attempt, outcome, Report(fs, ss)))
      modifies this
      ensures Valid()
      ensures Model() == Apply(old(Model()), Finalize(attempt, outcome, Report(fs, ss)), timeout)
      ensures written <==> old(status) != Cancelled
      ensures written ==> findings == fs && scores == Some(ss) && status == outcome
      ensures !written ==> findings == old(findings) && scores == old(scores)
    {
      if status == Cancelled {
        attempts := attempts[attempt := Attempt(Finished, Cancelled)];
        return false;
      }
      findings := [];
      if |fs| > 0 {
        findings := findings + fs;
      }
      assert findings == fs;
      scores := Some(ss);
      status := outcome;
      attempts := attempts[attempt := Attempt(Finished, outcome)];
      written := true;
    }

    /** The end of an execution whose worker is not shut down: failed without a page, partial after a failure or the deadline. */
    method Finish(attempt: nat, pages: nat, failed: nat, timedOut: bool, fs: seq<Finding>, ss: Scores, timeout: nat)
      returns (outcome: Status)
      requires Valid() && IsExecuting(Model(), attempt)
      modifies this
      ensures Valid()
      ensures outcome == Failed <==> pages == 0
      ensures outcome == Partial <==> pages > 0 && (failed > 0 || timedOut)
      ensures outcome == Completed <==> pages > 0 && failed == 0 && !timedOut
      ensures status == if old(status) == Cancelled then Cancelled else outcome
      ensures Model() == Apply(old(Model()), Finalize(attempt, outcome, Report(fs, ss)), timeout)
    {
      outcome := Completed;
      if pages == 0 {
        outcome := Failed;
      } else if failed > 0 || timedOut {
        outcome := Partial;
      }
      var _ := FinalizeAudit(attempt, outcome, fs, ss, timeout);
    }

    method CancelAudit(timeout: nat) returns (count: nat)
      requires Valid()
      modifies this
      ensures Valid() && Model() == Apply(old(Model()), Cancel, timeout)
      ensures count == if old(status) == Queued || old(status) == Running then 1 else 0
      ensures status == if count == 1 then Cancelled else old(status)
      ensures findings == old(findings) && scores == old(scores)
    {
      count := 0;
      if status == Queued || status == Running {
        status := Cancelled;
        count := 1;
      }
    }
  }
}
