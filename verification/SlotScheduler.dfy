/** The scheduler's methods: each is a run of the protocol's steps, one after the other. */
module SlotScheduler {
  import opened Commands
  import opened Options
  import opened Slots

  /** The answers one pass over a configuration may meet. */
  datatype Answers = Answers(token: nat, enabled: bool, setKey: Answer, claim: Answer, add: Answer, reset: Answer, release: Answer)

  function AcquireEvent(token: nat, slot: Slot, a: Answer): Event {
    if a.Done? then Acquire(token, slot) else AcquireError(token, slot, a.landed)
  }

  function ClaimEvent(token: nat, enabled: bool, a: Answer): Event {
    if a.Done? then ClaimRow(token, enabled) else ClaimRowError(token, a.landed)
  }

  function AddEvent(token: nat, a: Answer): Event {
    if a.Done? then Enqueue(token) else EnqueueError(token, a.landed)
  }

  function ReleaseEvent(token: nat, a: Answer): Event {
    if a.Done? then Release(token) else ReleaseError(token, a.landed)
  }

  /** Some run of the protocol leads from one state to the other. */
  ghost predicate Leads(s: State, t: State) {
    exists es :: Exec(s, es) == Some(t)
  }

  lemma LeadsNowhere(s: State)
    ensures Leads(s, s)
  {
    assert Exec(s, []) == Some(s);
  }

  lemma LeadsOn(s: State, t: State, e: Event)
    requires Leads(s, t) && Enabled(t, e)
    ensures Leads(s, Apply(t, e))
  {
    var es :| Exec(s, es) == Some(t);
    var _ := Snoc(s, es, t, e);
  }

  class Scheduler {
    var now: nat
    var keys: map<Slot, Key>
    var locks: map<string, RowLock>
    var jobs: set<Slot>
    ghost var calls: map<nat, Call>
    ghost var deliveries: map<nat, Delivery>
    ghost var runs: set<Slot>
    ghost var checks: seq<Slot>

    ghost function Model(): State
      reads this
    {
      State(now, keys, locks, calls, jobs, deliveries, runs, checks)
    }

    constructor ()
      ensures Model() == INITIAL
    {
      now, keys, locks, jobs, calls, deliveries, runs, checks := 0, map[], map[], {}, map[], map[], {}, [];
    }

    /** SET key token EX 600 NX; None if it throws. */
    method SetIfAbsent(slot: Slot, token: nat, answer: Answer) returns (acquired: Option<bool>)
      requires token !in calls
      modifies this
      ensures Model() == Apply(old(Model()), AcquireEvent(token, slot, answer))
      ensures acquired == if answer.Error? then None else Some(slot !in old(keys) || old(keys)[slot].expires <= now)
      ensures calls == old(calls)[token := Call(slot, now, if acquired == Some(true) then Holding else Ended(acquired.None?))]
      ensures keys == if (slot !in old(keys) || old(keys)[slot].expires <= now) && HasEffect(answer)
                      then old(keys)[slot := Key(token, now + 600)] else old(keys)
      ensures locks == old(locks) && jobs == old(jobs) && now == old(now)
    {
      var free := slot !in keys || keys[slot].expires <= now;
      if free && HasEffect(answer) {
        keys := keys[slot := Key(token, now + LOCK_SECONDS)];
      }
      acquired := if answer.Error? then None else Some(free);
      calls := calls[token := Call(slot, now, if acquired == Some(true) then Holding else Ended(acquired.None?))];
    }

    /** The script runs where the key lives; an error is swallowed. */
    method ReleaseRedisLock(slot: Slot, token: nat, answer: Answer) returns (released: bool)
      requires At(Model(), token, Releasing) && calls[token].slot == slot
      modifies this
      ensures Model() == Apply(old(Model()), ReleaseEvent(token, answer))
      ensures calls == Goto(old(calls), token, Ended(answer.Error?))
      ensures locks == old(locks) && jobs == old(jobs) && now == old(now)
      ensures released <==> answer.Done? && slot in old(keys) && old(keys)[slot].token == token
    {
      released := false;
      if HasEffect(answer) {
        if slot in keys && keys[slot].token == token {
          keys := keys - {slot};
          released := answer.Done?;
        }
      }
      calls := Goto(calls, token, Ended(answer.Error?));
    }

    /** The conditional update of the configuration row; None if it throws. */
    method ClaimConfig(config: string, token: nat, enabled: bool, answer: Answer) returns (count: Option<nat>)
      requires At(Model(), token, Holding) && calls[token].slot.config == config
      modifies this
      ensures Model() == Apply(old(Model()), ClaimEvent(token, enabled, answer))
      ensures count == Some(1) <==> answer.Done? && enabled && (config !in old(locks) || old(locks)[config].until < now)
      ensures count == None <==> answer.Error?
      ensures calls == Goto(old(calls), token, if count == Some(1) then Claimed else Releasing)
      ensures count == Some(1) ==> locks == old(locks)[config := RowLock(token, now + 600)]
      ensures count == Some(0) ==> locks == old(locks)
      ensures keys == old(keys) && jobs == old(jobs) && now == old(now)
    {
      var matches := config !in locks || locks[config].until < now;
      if answer.Error? {
        if answer.landed && matches {
          locks := locks[config := RowLock(token, now + LOCK_SECONDS)];
        }
        calls := Goto(calls, token, Releasing);
        return None;
      }
      if enabled && matches {
        locks := locks[config := RowLock(token, now + LOCK_SECONDS)];
        calls := Goto(calls, token, Claimed);
        count := Some(1);
      } else {
        calls := Goto(calls, token, Releasing);
        count := Some(0);
      }
    }

    /**
     A claim succeeds exactly if the slot's key is free and the row can be claimed; then both
     carry its token. Otherwise the call has released its key, unless that reported an error. The
     SET is outside the try: if it throws, so does the claim, and nobody releases the key.
     */
    method ClaimMonitorSlot(slot: Slot, a: Answers) returns (threw: bool, claimed: bool)
      requires a.token !in calls
      modifies this
      ensures Leads(old(Model()), Model())
      ensures threw <==> a.setKey.Error?
      ensures claimed <==> old(IsFree(Model(), slot)) && a.setKey.Done? && a.claim.Done? && a.enabled
                           && old(IsUnlocked(Model(), slot.config))
      ensures claimed ==> keys == old(keys)[slot := Key(a.token, now + LOCK_SECONDS)]
                          && locks == old(locks)[slot.config := RowLock(a.token, now + LOCK_SECONDS)]
      ensures a.token in calls && calls == old(calls)[a.token := Call(slot, now, calls[a.token].phase)]
      ensures claimed <==> calls[a.token].phase == Claimed
      ensures !claimed ==> || calls[a.token].phase == Ended(false)
                           || ((a.release.Error? || threw) && calls[a.token].phase == Ended(true))
      ensures jobs == old(jobs) && now == old(now)
    {
      hide Exec, Leads, Apply;
      LeadsNowhere(Model());
      LeadsOn(old(Model()), Model(), AcquireEvent(a.token, slot, a.setKey));
      var acquired := SetIfAbsent(slot, a.token, a.setKey);
      if acquired.None? {
        return true, false;
      }
      if !acquired.value {
        return false, false;
      }
      ghost var held := Model();
      claimed := ClaimOrRelease(slot, a);
      LeadsTransitive(old(Model()), held, Model());
      threw := false;
    }

    /** The part of a claim inside the try: the row is claimed, or the key is released. */
    method ClaimOrRelease(slot: Slot, a: Answers) returns (claimed: bool)
      requires At(Model(), a.token, Holding) && calls[a.token].slot == slot
      modifies this
      ensures Leads(old(Model()), Model())
      ensures claimed <==> a.claim.Done? && a.enabled && old(IsUnlocked(Model(), slot.config))
      ensures claimed ==> keys == old(keys) && locks == old(locks)[slot.config := RowLock(a.token, now + LOCK_SECONDS)]
      ensures calls == Goto(old(calls), a.token, if claimed then Claimed else Ended(a.release.Error?))
      ensures jobs == old(jobs) && now == old(now)
    {
      hide Exec, Leads, Apply;
      LeadsNowhere(Model());
      LeadsOn(old(Model()), Model(), ClaimEvent(a.token, a.enabled, a.claim));
      var count := ClaimConfig(slot.config, a.token, a.enabled, a.claim);
      claimed := count == Some(1);
      if !claimed {
        LeadsOn(old(Model()), Model(), ReleaseEvent(a.token, a.release));
        var _ := ReleaseRedisLock(slot, a.token, a.release);
      }
    }

    /** Adds the slot's job; its identifier is the slot, so a second one changes nothing. */
    method AddJob(slot: Slot, token: nat, answer: Answer) returns (added: bool)
      requires At(Model(), token, Claimed) && calls[token].slot == slot
      modifies this
      ensures Model() == Apply(old(Model()), AddEvent(token, answer))
      ensures added <==> answer.Done?
      ensures calls == Goto(old(calls), token, if added then Enqueued else Resetting)
      ensures old(jobs) <= jobs && (added ==> slot in jobs) && locks == old(locks) && now == old(now)
    {
      added := answer.Done?;
      if HasEffect(answer) {
        jobs := jobs + {slot};
      }
      calls := Goto(calls, token, if added then Enqueued else Resetting);
    }

    /** The unconditional reset of the row's lock; an error is swallowed. */
    method ResetClaim(config: string, token: nat, answer: Answer)
      requires At(Model(), token, Resetting) && calls[token].slot.config == config
      modifies this
      ensures Model() == Apply(old(Model()), ResetRow(token, HasEffect(answer)))
      ensures calls == Goto(old(calls), token, Releasing) && jobs == old(jobs)
      ensures HasEffect(answer) ==> config !in locks
    {
      if HasEffect(answer) {
        locks := locks - {config};
      }
      calls := Goto(calls, token, Releasing);
    }

    /** One due configuration: claim, enqueue, and roll back what was claimed if that fails. */
    method EnqueueMonitor(slot: Slot, a: Answers) returns (threw: bool, enqueued: bool)
      requires a.token !in calls
      modifies this
      ensures Leads(old(Model()), Model())
      ensures threw <==> a.setKey.Error?
      ensures a.token in calls && calls == old(calls)[a.token := calls[a.token]] && calls[a.token].slot == slot
      ensures enqueued <==> calls[a.token].phase == Enqueued
      ensures !enqueued ==> calls[a.token].phase.Ended?
      ensures !enqueued && !threw && a.release.Done? ==> calls[a.token].phase == Ended(false)
      ensures enqueued ==> slot.config in locks && locks[slot.config] == RowLock(a.token, now + 600)
      ensures var claimed := old(IsFree(Model(), slot)) && old(IsUnlocked(Model(), slot.config)) && a.enabled
                             && a.setKey.Done? && a.claim.Done?;
              && (enqueued <==> claimed && a.add.Done?)
              && (claimed && !enqueued && HasEffect(a.reset) ==> slot.config !in locks)
      ensures old(jobs) <= jobs && (enqueued ==> slot in jobs && !threw)
    {
      hide Exec, Leads, Apply, IsFree, IsUnlocked;
      var claimed;
      enqueued := false;
      threw, claimed := ClaimMonitorSlot(slot, a);
      if !claimed {
        return;
      }
      LeadsOn(old(Model()), Model(), AddEvent(a.token, a.add));
      enqueued := AddJob(slot, a.token, a.add);
      if !enqueued {
        LeadsOn(old(Model()), Model(), ResetRow(a.token, HasEffect(a.reset)));
        ResetClaim(slot.config, a.token, a.reset);
        LeadsOn(old(Model()), Model(), ReleaseEvent(a.token, a.release));
        var _ := ReleaseRedisLock(slot, a.token, a.release);
      }
    }

    /**
     A whole cycle over the due configurations: it counts the calls that enqueued, all of them
     have their job in the queue, and every other call has come to its end. The first SET that
     throws ends the cycle: the configurations after it are not touched.
     */
    method EnqueueDueMonitors(due: seq<string>, bucket: nat, answers: seq<Answers>)
      returns (threw: bool, reached: nat, enqueued: nat)
      requires |due| == |answers| && Distinct(answers) && Untouched(calls, answers, 0)
      modifies this
      ensures Leads(old(Model()), Model())
      ensures reached <= |due| && (!threw ==> reached == |due|)
      ensures threw ==> reached > 0 && answers[reached - 1].setKey.Error?
      ensures forall i :: 0 <= i < (if threw then reached - 1 else reached) ==> answers[i].setKey.Done?
      ensures Cycle(Model(), due, bucket, answers, reached, enqueued)
      ensures Untouched(calls, answers, reached)
    {
      threw, reached, enqueued := false, 0, 0;
      LeadsNowhere(Model());
      while reached < |due| && !threw
        invariant reached <= |due|
        invariant Leads(old(Model()), Model())
        invariant threw ==> reached > 0 && answers[reached - 1].setKey.Error?
        invariant forall i :: 0 <= i < (if threw then reached - 1 else reached) ==> answers[i].setKey.Done?
        invariant Cycle(Model(), due, bucket, answers, reached, enqueued)
        invariant Untouched(calls, answers, reached)
      {
        hide Leads, Exec, Cycle, Untouched, Distinct;
        ghost var before := Model();
        var added;
        NotYet(calls, answers, reached);
        threw, added := EnqueueMonitor(Slot(due[reached], bucket), answers[reached]);
        LeadsTransitive(old(Model()), before, Model());
        CycleNext(before, Model(), due, bucket, answers, reached, enqueued);
        if added {
          enqueued := enqueued + 1;
        }
        reached := reached + 1;
      }
    }
  }

  ghost predicate Distinct(answers: seq<Answers>) {
    forall i, j :: 0 <= i < j < |answers| ==> answers[i].token != answers[j].token
  }

  /** The calls for the configurations from `k` on have not begun. */
  ghost predicate Untouched(calls: map<nat, Call>, answers: seq<Answers>, k: nat) {
    forall i :: k <= i < |answers| ==> answers[i].token !in calls
  }

  lemma NotYet(calls: map<nat, Call>, answers: seq<Answers>, k: nat)
    requires Untouched(calls, answers, k) && k < |answers|
    ensures answers[k].token !in calls
  {
  }

  /** The first `k` calls are settled, and `n` of them have enqueued. */
  ghost predicate Cycle(s: State, due: seq<string>, bucket: nat, answers: seq<Answers>, k: nat, n: nat)
    requires |due| == |answers|
  {
    && k <= |due|
    && (forall i :: 0 <= i < k ==> Settled(s, answers[i].token, Slot(due[i], bucket)))
    && n == |EnqueuedBelow(s, answers, k)|
  }

  function EnqueuedBelow(s: State, answers: seq<Answers>, k: nat): set<int>
    requires k <= |answers|
  {
    set i | 0 <= i < k && At(s, answers[i].token, Enqueued)
  }

  lemma CountNext(s: State, t: State, answers: seq<Answers>, k: nat)
    requires k < |answers|
    requires forall i :: 0 <= i < k ==> At(t, answers[i].token, Enqueued) == At(s, answers[i].token, Enqueued)
    ensures |EnqueuedBelow(t, answers, k + 1)| ==
              |EnqueuedBelow(s, answers, k)| + if At(t, answers[k].token, Enqueued) then 1 else 0
  {
    hide At;
    assert EnqueuedBelow(t, answers, k + 1) == EnqueuedBelow(s, answers, k) + if At(t, answers[k].token, Enqueued) then {k} else {};
  }

  lemma OthersStay(s: State, t: State, token: nat, other: nat, slot: Slot)
    requires token in t.calls && t.calls == s.calls[token := t.calls[token]] && s.jobs <= t.jobs
    requires other != token && Settled(s, other, slot)
    ensures Settled(t, other, slot) && At(t, other, Enqueued) == At(s, other, Enqueued)
  {
  }

  lemma UntouchedNext(s: State, t: State, answers: seq<Answers>, k: nat)
    requires k < |answers| && Distinct(answers) && Untouched(s.calls, answers, k)
    requires var token := answers[k].token; token in t.calls && t.calls == s.calls[token := t.calls[token]]
    ensures Untouched(t.calls, answers, k + 1)
  {
  }

  lemma CycleNext(s: State, t: State, due: seq<string>, bucket: nat, answers: seq<Answers>, k: nat, n: nat)
    requires |due| == |answers| && k < |due| && Distinct(answers)
    requires Cycle(s, due, bucket, answers, k, n) && Untouched(s.calls, answers, k)
    requires var token := answers[k].token;
             && token in t.calls && t.calls == s.calls[token := t.calls[token]] && s.jobs <= t.jobs
             && Settled(t, token, Slot(due[k], bucket))
    ensures Cycle(t, due, bucket, answers, k + 1, if At(t, answers[k].token, Enqueued) then n + 1 else n)
    ensures Untouched(t.calls, answers, k + 1)
  {
    hide Settled, At, Untouched, EnqueuedBelow;
    UntouchedNext(s, t, answers, k);
    forall i | 0 <= i < k
      ensures Settled(t, answers[i].token, Slot(due[i], bucket))
      ensures At(t, answers[i].token, Enqueued) == At(s, answers[i].token, Enqueued)
    {
      OthersStay(s, t, answers[k].token, answers[i].token, Slot(due[i], bucket));
    }
    CountNext(s, t, answers, k);
  }

  /** The call has enqueued its slot's job, or has ended without one. */
  ghost predicate Settled(s: State, token: nat, slot: Slot) {
    && token in s.calls && s.calls[token].slot == slot
    && (s.calls[token].phase.Ended? || (s.calls[token].phase == Enqueued && slot in s.jobs))
  }

  lemma LeadsTransitive(s: State, t: State, u: State)
    requires Leads(s, t) && Leads(t, u)
    ensures Leads(s, u)
  {
    var es :| Exec(s, es) == Some(t);
    var fs :| Exec(t, fs) == Some(u);
    ExecConcat(s, es, fs);
  }

  lemma {:induction false} ExecConcat(s: State, es: seq<Event>, fs: seq<Event>)
    requires Exec(s, es).Some?
    ensures Exec(s, es + fs) == Exec(Exec(s, es).value, fs)
    decreases |fs|
  {
    hide Apply, Enabled;
    if fs == [] {
      assert es + fs == es;
    } else {
      assert (es + fs)[..|es + fs| - 1] == es + fs[..|fs| - 1];
      ExecConcat(s, es, fs[..|fs| - 1]);
    }
  }
}
