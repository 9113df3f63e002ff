/**
 Claiming a monitoring slot. Any number of schedulers and job processors interleave; every
 command to Redis, to the database or to the queue is one atomic step. A scheduler that crashes
 is one that takes no further step. Tokens are UUIDs: no two calls draw the same one.
 Times are in seconds.
 */
module Slots {
  import opened Options

  const LOCK_SECONDS := 600

  datatype Slot = Slot(config: string, bucket: nat)

  datatype Key = Key(token: nat, expires: nat)

  datatype RowLock = RowLock(token: nat, until: nat)

  /**
   Where a call stands: it holds the key and is about to claim the row; has claimed it and is
   about to enqueue; must reset the row; must release the key; has enqueued; has ended without a
   claim, and may have left its key behind if setting or releasing it reported an error.
   */
  datatype Phase = Holding | Claimed | Resetting | Releasing | Enqueued | Ended(leaky: bool)

  datatype Call = Call(slot: Slot, since: nat, phase: Phase)

  /** A delivery of a slot's job: looked up without finding a run, running, or over. */
  datatype Delivery = Creating(slot: Slot) | Running(slot: Slot) | Over(slot: Slot)

  datatype State = State(
    now: nat,
    keys: map<Slot, Key>,
    locks: map<string, RowLock>,
    calls: map<nat, Call>,
    jobs: set<Slot>,
    deliveries: map<nat, Delivery>,
    runs: set<Slot>, // unique key of configuration and slot
    checks: seq<Slot>) // health checks made, oldest first

  /** `landed` says whether a command that reported an error had its effect all the same. */
  datatype Event =
    | Tick(seconds: nat)
    | Acquire(token: nat, slot: Slot)
    | AcquireError(token: nat, slot: Slot, landed: bool)
    | ClaimRow(token: nat, enabled: bool)
    | ClaimRowError(token: nat, landed: bool)
    | Enqueue(token: nat)
    | EnqueueError(token: nat, landed: bool)
    | ResetRow(token: nat, landed: bool)
    | Release(token: nat)
    | ReleaseError(token: nat, landed: bool)
    | Deliver(delivery: nat, slot: Slot)
    | CreateRun(delivery: nat)
    | CreateRunError(delivery: nat, landed: bool)
    | EndRun(delivery: nat, landed: bool)

  const INITIAL := State(0, map[], map[], map[], {}, map[], {}, [])

  predicate IsFree(s: State, slot: Slot) {
    slot !in s.keys || s.keys[slot].expires <= s.now
  }

  predicate IsUnlocked(s: State, config: string) {
    config !in s.locks || s.locks[config].until < s.now
  }

  predicate At(s: State, token: nat, phase: Phase) {
    token in s.calls && s.calls[token].phase == phase
  }

  predicate Enabled(s: State, e: Event) {
    match e
    case Tick(_) => true
    case Acquire(token, _) => token !in s.calls
    case AcquireError(token, _, _) => token !in s.calls
    case ClaimRow(token, _) => At(s, token, Holding)
    case ClaimRowError(token, _) => At(s, token, Holding)
    case Enqueue(token) => At(s, token, Claimed)
    case EnqueueError(token, _) => At(s, token, Claimed)
    case ResetRow(token, _) => At(s, token, Resetting)
    case Release(token) => At(s, token, Releasing)
    case ReleaseError(token, _) => At(s, token, Releasing)
    case Deliver(d, slot) => d !in s.deliveries && slot in s.jobs
    case CreateRun(d) => d in s.deliveries && s.deliveries[d].Creating?
    case CreateRunError(d, _) => d in s.deliveries && s.deliveries[d].Creating?
    case EndRun(d, _) => d in s.deliveries && s.deliveries[d].Running?
  }

  function Goto(calls: map<nat, Call>, token: nat, phase: Phase): map<nat, Call>
    requires token in calls
  {
    calls[token := calls[token].(phase := phase)]
  }

  /** The compare-and-delete script: only the key that carries the token goes. */
  function Without(keys: map<Slot, Key>, slot: Slot, token: nat): map<Slot, Key> {
    if slot in keys && keys[slot].token == token then keys - {slot} else keys
  }

  function Locked(s: State, token: nat): map<string, RowLock>
    requires token in s.calls
  {
    s.locks[s.calls[token].slot.config := RowLock(token, s.now + LOCK_SECONDS)]
  }

  function Apply(s: State, e: Event): State
    requires Enabled(s, e)
  {
    match e
    case Tick(n) => s.(now := s.now + n)
    case Acquire(token, slot) =>
      if IsFree(s, slot)
      then s.(keys := s.keys[slot := Key(token, s.now + LOCK_SECONDS)],
              calls := s.calls[token := Call(slot, s.now, Holding)])
      else s.(calls := s.calls[token := Call(slot, s.now, Ended(false))])
    case AcquireError(token, slot, landed) =>
      // The error leaves the scheduler's cycle: nobody releases the key.
      s.(keys := if landed && IsFree(s, slot) then s.keys[slot := Key(token, s.now + LOCK_SECONDS)] else s.keys,
         calls := s.calls[token := Call(slot, s.now, Ended(true))])
    case ClaimRow(token, enabled) =>
      if enabled && IsUnlocked(s, s.calls[token].slot.config)
      then s.(locks := Locked(s, token), calls := Goto(s.calls, token, Claimed))
      else s.(calls := Goto(s.calls, token, Releasing))
    case ClaimRowError(token, landed) =>
      s.(locks := if landed && IsUnlocked(s, s.calls[token].slot.config) then Locked(s, token) else s.locks,
         calls := Goto(s.calls, token, Releasing))
    case Enqueue(token) =>
      s.(jobs := s.jobs + {s.calls[token].slot}, calls := Goto(s.calls, token, Enqueued))
    case EnqueueError(token, landed) =>
      s.(jobs := if landed then s.jobs + {s.calls[token].slot} else s.jobs,
         calls := Goto(s.calls, token, Resetting))
    case ResetRow(token, landed) =>
      // Whoever holds the row by now: the token is not compared.
      s.(locks := if landed then s.locks - {s.calls[token].slot.config} else s.locks,
         calls := Goto(s.calls, token, Releasing))
    case Release(token) =>
      s.(keys := Without(s.keys, s.calls[token].slot, token), calls := Goto(s.calls, token, Ended(false)))
    case ReleaseError(token, landed) =>
      s.(keys := if landed then Without(s.keys, s.calls[token].slot, token) else s.keys,
         calls := Goto(s.calls, token, Ended(true)))
    case Deliver(d, slot) =>
      s.(deliveries := s.deliveries[d := if slot in s.runs then Over(slot) else Creating(slot)])
    case CreateRun(d) =>
      var slot := s.deliveries[d].slot;
      if slot in s.runs then s.(deliveries := s.deliveries[d := Over(slot)]) // unique violation
      else s.(runs := s.runs + {slot}, checks := s.checks + [slot], deliveries := s.deliveries[d := Running(slot)])
    case CreateRunError(d, landed) =>
      // The error leaves the job before its health check; the job may be delivered again.
      var slot := s.deliveries[d].slot;
      s.(runs := if landed then s.runs + {slot} else s.runs, deliveries := s.deliveries[d := Over(slot)])
    case EndRun(d, landed) =>
      // Completed, partial or failed: the lock is cleared, and again no token is compared.
      var slot := s.deliveries[d].slot;
      s.(locks := if landed then s.locks - {slot.config} else s.locks,
         deliveries := s.deliveries[d := Over(slot)])
  }

  /** Running the events in order; None if one of them is not enabled. */
  function Exec(s: State, es: seq<Event>): Option<State>
    decreases |es|
  {
    if es == [] then Some(s)
    else
      var before := Exec(s, es[..|es| - 1]);
      if before.Some? && Enabled(before.value, es[|es| - 1])
      then Some(Apply(before.value, es[|es| - 1])) else None
  }

  // ---- the key ----

  /** Between acquiring the key and releasing it, for as long as the key lives, the call owns it. */
  ghost predicate Owned(now: nat, keys: map<Slot, Key>, calls: map<nat, Call>) {
    forall t :: t in calls ==>
      var c := calls[t];
      && c.since <= now
      && (!c.phase.Ended? && now < c.since + LOCK_SECONDS ==>
            c.slot in keys && keys[c.slot] == Key(t, c.since + LOCK_SECONDS))
  }

  /**
   A key belongs to a call that has not ended, or that met an error in setting or releasing it, and
   it expires 600 seconds after that call set it.
   */
  ghost predicate Traced(keys: map<Slot, Key>, calls: map<nat, Call>) {
    forall slot :: slot in keys ==>
      var t := keys[slot].token;
      && t in calls && calls[t].slot == slot && keys[slot].expires == calls[t].since + LOCK_SECONDS
      && calls[t].phase != Ended(false)
  }

  /** Two calls that hold on to one slot acquired its key a whole lifetime apart. */
  ghost predicate Apart(calls: map<nat, Call>) {
    forall t, u :: t in calls && u in calls && t != u ==> Separate(calls[t], calls[u])
  }

  ghost predicate Separate(c: Call, d: Call) {
    c.slot == d.slot && !c.phase.Ended? && !d.phase.Ended? ==>
      c.since + LOCK_SECONDS <= d.since || d.since + LOCK_SECONDS <= c.since
  }

  ghost predicate Inv(s: State) {
    && Owned(s.now, s.keys, s.calls)
    && Traced(s.keys, s.calls)
    && Apart(s.calls)
    && OneCheck(s.runs, s.checks)
  }

  lemma AcquireKeepsOwned(s: State, token: nat, slot: Slot)
    requires Owned(s.now, s.keys, s.calls) && token !in s.calls
    ensures Owned(s.now, Apply(s, Acquire(token, slot)).keys, Apply(s, Acquire(token, slot)).calls)
  {
  }

  lemma AcquireKeepsTraced(s: State, token: nat, slot: Slot)
    requires Traced(s.keys, s.calls) && token !in s.calls
    ensures Traced(Apply(s, Acquire(token, slot)).keys, Apply(s, Acquire(token, slot)).calls)
  {
  }

  lemma AcquireKeepsApart(s: State, token: nat, slot: Slot)
    requires Apart(s.calls) && Owned(s.now, s.keys, s.calls) && token !in s.calls
    ensures Apart(Apply(s, Acquire(token, slot)).calls)
  {
    var calls := Apply(s, Acquire(token, slot)).calls;
    forall t | t in s.calls
      ensures Separate(calls[t], calls[token]) && Separate(calls[token], calls[t])
    {
      hide Apart;
      assert calls[t] == s.calls[t];
    }
    hide Owned, Separate, Apply;
    forall t, u | t in calls && u in calls && t != u
      ensures Separate(calls[t], calls[u])
    {
      if t != token && u != token {
        assert Separate(s.calls[t], s.calls[u]);
      }
    }
  }

  lemma FailedAcquireKeeps(s: State, token: nat, slot: Slot, landed: bool)
    requires Inv(s) && token !in s.calls
    ensures var t := Apply(s, AcquireError(token, slot, landed));
            Owned(t.now, t.keys, t.calls) && Traced(t.keys, t.calls) && Apart(t.calls)
  {
    hide OneCheck;
    FailedAcquireKeepsOwned(s, token, slot, landed);
    FailedAcquireKeepsTraced(s, token, slot, landed);
    hide Owned, Traced;
    var t := Apply(s, AcquireError(token, slot, landed));
    forall x, y | x in t.calls && y in t.calls && x != y
      ensures Separate(t.calls[x], t.calls[y])
    {
      assert x in s.calls && y in s.calls ==> Separate(s.calls[x], s.calls[y]);
    }
  }

  lemma FailedAcquireKeepsOwned(s: State, token: nat, slot: Slot, landed: bool)
    requires Owned(s.now, s.keys, s.calls) && token !in s.calls
    ensures var t := Apply(s, AcquireError(token, slot, landed)); Owned(t.now, t.keys, t.calls)
  {
  }

  lemma FailedAcquireKeepsTraced(s: State, token: nat, slot: Slot, landed: bool)
    requires Traced(s.keys, s.calls) && token !in s.calls
    ensures var t := Apply(s, AcquireError(token, slot, landed)); Traced(t.keys, t.calls)
  {
  }

  /** A call moves on: it keeps its key, or ends with or without giving it up. */
  predicate IsMove(s: State, token: nat, phase: Phase, keys: map<Slot, Key>) {
    && token in s.calls && !s.calls[token].phase.Ended?
    && (|| (keys == s.keys && phase != Ended(false))
        || (keys == Without(s.keys, s.calls[token].slot, token) && phase.Ended?))
  }

  lemma MoveKeepsOwned(s: State, token: nat, phase: Phase, keys: map<Slot, Key>)
    requires Owned(s.now, s.keys, s.calls) && IsMove(s, token, phase, keys)
    ensures Owned(s.now, keys, Goto(s.calls, token, phase))
  {
  }

  lemma MoveKeepsTraced(s: State, token: nat, phase: Phase, keys: map<Slot, Key>)
    requires Traced(s.keys, s.calls) && IsMove(s, token, phase, keys)
    ensures Traced(keys, Goto(s.calls, token, phase))
  {
  }

  lemma MoveKeepsApart(s: State, token: nat, phase: Phase)
    requires Apart(s.calls) && token in s.calls && !s.calls[token].phase.Ended?
    ensures Apart(Goto(s.calls, token, phase))
  {
    var calls := Goto(s.calls, token, phase);
    forall t, u | t in calls && u in calls && t != u
      ensures Separate(calls[t], calls[u])
    {
      assert Separate(s.calls[t], s.calls[u]);
    }
  }

  predicate IsCallStep(e: Event) {
    || e.ClaimRow? || e.ClaimRowError? || e.Enqueue? || e.EnqueueError? || e.ResetRow? || e.Release? || e.ReleaseError?
  }

  lemma MovesOn(s: State, e: Event)
    requires Enabled(s, e) && IsCallStep(e)
    ensures var s' := Apply(s, e);
            && e.token in s.calls && e.token in s'.calls
            && IsMove(s, e.token, s'.calls[e.token].phase, s'.keys)
            && s'.calls == Goto(s.calls, e.token, s'.calls[e.token].phase)
            && s'.now == s.now && s'.runs == s.runs && s'.checks == s.checks
  {
  }

  lemma StillOpen(s: State, e: Event)
    requires Enabled(s, e) && IsCallStep(e)
    ensures e.token in s.calls && !s.calls[e.token].phase.Ended?
  {
  }

  lemma ApplyKeeps(s: State, e: Event)
    requires Inv(s) && Enabled(s, e)
    ensures Inv(Apply(s, e))
  {
    match e
    case Tick(_) =>
    case Acquire(token, slot) =>
      hide Owned, Traced, Apart, OneCheck;
      AcquireKeepsOwned(s, token, slot);
      AcquireKeepsTraced(s, token, slot);
      AcquireKeepsApart(s, token, slot);
    case AcquireError(token, slot, landed) =>
      hide Owned, Traced, Apart, OneCheck;
      FailedAcquireKeeps(s, token, slot, landed);
    case Deliver(_, _) =>
      hide Owned, Traced, Apart, OneCheck;
    case CreateRun(d) =>
      hide Owned, Traced, Apart;
    case CreateRunError(_, _) =>
      hide Owned, Traced, Apart;
    case EndRun(_, _) =>
      hide Owned, Traced, Apart, OneCheck;
    case _ =>
      MovesOn(s, e);
      hide Owned, Traced, Apart, OneCheck, Apply, IsMove;
      var s' := Apply(s, e);
      var phase := s'.calls[e.token].phase;
      MoveKeepsOwned(s, e.token, phase, s'.keys);
      MoveKeepsTraced(s, e.token, phase, s'.keys);
      StillOpen(s, e);
      MoveKeepsApart(s, e.token, phase);
  }

  lemma {:induction false} ExecKeeps(es: seq<Event>)
    requires Exec(INITIAL, es).Some?
    ensures Inv(Exec(INITIAL, es).value)
    decreases |es|
  {
    if es != [] {
      ExecKeeps(es[..|es| - 1]);
      hide Inv, Apply, Enabled;
      ApplyKeeps(Exec(INITIAL, es[..|es| - 1]).value, es[|es| - 1]);
    }
  }

  /**
   Two calls that both hold on to one slot, whether claiming, claimed, enqueued or still to
   release, acquired its key at least 600 seconds apart. So while a claim's key lives, it is the
   only claim of its configuration and slot.
   */
  lemma ClaimsAreExclusive(es: seq<Event>, t: nat, u: nat)
    requires Exec(INITIAL, es).Some?
    requires var calls := Exec(INITIAL, es).value.calls;
             t in calls && u in calls && calls[t].slot == calls[u].slot
             && !calls[t].phase.Ended? && !calls[u].phase.Ended?
    ensures var s := Exec(INITIAL, es).value;
            var c, d := s.calls[t], s.calls[u];
            && (t == u || c.since + LOCK_SECONDS <= d.since || d.since + LOCK_SECONDS <= c.since)
            && (s.now < c.since + LOCK_SECONDS && s.now < d.since + LOCK_SECONDS ==> t == u)
  {
    hide Exec;
    ExecKeeps(es);
    var calls := Exec(INITIAL, es).value.calls;
    assert t != u ==> Separate(calls[t], calls[u]);
  }

  /** A call that ended without a claim has left no key with its token, unless setting or releasing it met an error. */
  lemma RefusedCallsLeaveNoKey(es: seq<Event>, token: nat)
    requires Exec(INITIAL, es).Some? && At(Exec(INITIAL, es).value, token, Ended(false))
    ensures forall slot :: slot in Exec(INITIAL, es).value.keys ==> Exec(INITIAL, es).value.keys[slot].token != token
  {
    hide Exec;
    ExecKeeps(es);
  }

  /** No step takes away or replaces a living key except the release of the call that set it. */
  lemma LivingKeysAreSafe(s: State, e: Event, slot: Slot)
    requires Enabled(s, e) && !IsFree(s, slot)
    requires !((e.Release? || e.ReleaseError?) && e.token == s.keys[slot].token)
    ensures slot in Apply(s, e).keys && Apply(s, e).keys[slot] == s.keys[slot]
  {
  }

  lemma EndedStays(s: State, e: Event, token: nat)
    requires Enabled(s, e) && token in s.calls && s.calls[token].phase.Ended?
    ensures token in Apply(s, e).calls && Apply(s, e).calls[token] == s.calls[token]
    ensures !((e.Release? || e.ReleaseError?) && e.token == token)
    ensures s.now <= Apply(s, e).now
  {
  }

  /**
   A key that a call left behind blocks its slot for the rest of its 600 seconds: through every run
   it stays as it is, so that no other call can acquire the slot in that time.
   */
  lemma {:induction false} OrphanedKeysBlock(s: State, es: seq<Event>, slot: Slot)
    requires slot in s.keys && s.keys[slot].token in s.calls && s.calls[s.keys[slot].token].phase.Ended?
    requires Exec(s, es).Some? && Exec(s, es).value.now < s.keys[slot].expires
    ensures var t := Exec(s, es).value;
            && slot in t.keys && t.keys[slot] == s.keys[slot] && !IsFree(t, slot) && s.now <= t.now
            && s.keys[slot].token in t.calls && t.calls[s.keys[slot].token].phase.Ended?
    decreases |es|
  {
    if es != [] {
      var before, e := Exec(s, es[..|es| - 1]).value, es[|es| - 1];
      hide Apply, Enabled;
      TimePasses(before, e);
      OrphanedKeysBlock(s, es[..|es| - 1], slot);
      EndedStays(before, e, s.keys[slot].token);
      LivingKeysAreSafe(before, e, slot);
    }
  }

  lemma TimePasses(s: State, e: Event)
    requires Enabled(s, e)
    ensures s.now <= Apply(s, e).now
  {
  }

  predicate HasKey(s: State, token: nat)
    requires token in s.calls
  {
    var slot := s.calls[token].slot;
    slot in s.keys && s.keys[slot].token == token
  }

  /** The call's SET takes effect and throws, or its release throws without effect. */
  predicate Abandons(s: State, e: Event, token: nat) {
    || (e.AcquireError? && e.token == token && e.landed && IsFree(s, e.slot))
    || (e.ReleaseError? && e.token == token && !e.landed)
  }

  predicate AbandonsAt(es: seq<Event>, i: int, token: nat) {
    && 0 <= i < |es| && Exec(INITIAL, es[..i]).Some?
    && Abandons(Exec(INITIAL, es[..i]).value, es[i], token)
  }

  /** Some event of the run abandoned the call's key. */
  ghost predicate Abandoned(es: seq<Event>, token: nat) {
    exists i :: AbandonsAt(es, i, token)
  }

  lemma AbandonedSnoc(es: seq<Event>, token: nat)
    requires es != [] && Exec(INITIAL, es).Some?
    ensures var front := es[..|es| - 1];
            Abandoned(es, token) <==>
              Abandoned(front, token) || Abandons(Exec(INITIAL, front).value, es[|es| - 1], token)
  {
    hide Abandons, Apply, Enabled;
    var front := es[..|es| - 1];
    forall i | 0 <= i < |front|
      ensures AbandonsAt(es, i, token) == AbandonsAt(front, i, token)
    {
      assert es[..i] == front[..i];
    }
    assert AbandonsAt(es, |front|, token) == Abandons(Exec(INITIAL, front).value, es[|es| - 1], token);
    forall i | AbandonsAt(es, i, token)
      ensures i == |front| || AbandonsAt(front, i, token)
    {
      assert i < |front| ==> AbandonsAt(es, i, token) == AbandonsAt(front, i, token);
    }
    forall i | AbandonsAt(front, i, token)
      ensures AbandonsAt(es, i, token)
    {
    }
  }

  /** A call that has not ended has abandoned nothing; one that has ended left its key exactly if it has. */
  ghost predicate KeyIsAccounted(s: State, token: nat, abandoned: bool) {
    if token !in s.calls || !s.calls[token].phase.Ended? then !abandoned
    else s.now < s.calls[token].since + LOCK_SECONDS ==> (HasKey(s, token) <==> abandoned)
  }

  lemma BeginningIsAccounted(s: State, e: Event, abandoned: bool)
    requires Traced(s.keys, s.calls) && Enabled(s, e) && (e.Acquire? || e.AcquireError?)
    requires KeyIsAccounted(s, e.token, abandoned)
    ensures KeyIsAccounted(Apply(s, e), e.token, abandoned || Abandons(s, e, e.token))
  {
  }

  lemma EndIsAccounted(s: State, e: Event, abandoned: bool)
    requires Owned(s.now, s.keys, s.calls) && Enabled(s, e) && IsCallStep(e)
    requires KeyIsAccounted(s, e.token, abandoned)
    ensures KeyIsAccounted(Apply(s, e), e.token, abandoned || Abandons(s, e, e.token))
  {
  }

  lemma OtherAcquireStaysAccounted(s: State, e: Event, token: nat, abandoned: bool)
    requires Traced(s.keys, s.calls) && Enabled(s, e) && KeyIsAccounted(s, token, abandoned)
    requires (e.Acquire? || e.AcquireError?) && e.token != token
    ensures KeyIsAccounted(Apply(s, e), token, abandoned) && !Abandons(s, e, token)
  {
  }

  lemma OtherMoveStaysAccounted(s: State, e: Event, token: nat, abandoned: bool)
    requires Traced(s.keys, s.calls) && Enabled(s, e) && KeyIsAccounted(s, token, abandoned)
    requires IsCallStep(e) && e.token != token
    ensures KeyIsAccounted(Apply(s, e), token, abandoned) && !Abandons(s, e, token)
  {
    MovesOn(s, e);
    hide Apply, Enabled, IsFree;
  }

  lemma OtherStepStaysAccounted(s: State, e: Event, token: nat, abandoned: bool)
    requires Enabled(s, e) && KeyIsAccounted(s, token, abandoned)
    requires !(IsCallStep(e) || e.Acquire? || e.AcquireError?)
    ensures KeyIsAccounted(Apply(s, e), token, abandoned) && !Abandons(s, e, token)
  {
    hide IsFree;
  }

  lemma {:induction false} KeysAreAccounted(es: seq<Event>, token: nat)
    requires Exec(INITIAL, es).Some?
    ensures KeyIsAccounted(Exec(INITIAL, es).value, token, Abandoned(es, token))
    decreases |es|
  {
    if es != [] {
      var front, e := es[..|es| - 1], es[|es| - 1];
      var s, was := Exec(INITIAL, front).value, Abandoned(front, token);
      hide Apply, Enabled, KeyIsAccounted, Abandons, Abandoned, Owned, Traced, Apart, OneCheck;
      KeysAreAccounted(front, token);
      AbandonedSnoc(es, token);
      ExecKeeps(front);
      if IsCallStep(e) {
        if e.token == token { EndIsAccounted(s, e, was); } else { OtherMoveStaysAccounted(s, e, token, was); }
      } else if e.Acquire? || e.AcquireError? {
        if e.token == token { BeginningIsAccounted(s, e, was); } else { OtherAcquireStaysAccounted(s, e, token, was); }
      } else {
        OtherStepStaysAccounted(s, e, token, was);
      }
    }
  }

  /**
   While a key set by an ended call could live, it is still there exactly if the call's SET took
   effect and threw, or its release threw without effect.
   */
  lemma OrphanedKeysIff(es: seq<Event>, token: nat)
    requires Exec(INITIAL, es).Some?
    requires var s := Exec(INITIAL, es).value;
             token in s.calls && s.calls[token].phase.Ended? && s.now < s.calls[token].since + LOCK_SECONDS
    ensures HasKey(Exec(INITIAL, es).value, token) <==> exists i :: AbandonsAt(es, i, token)
  {
    hide Exec, AbandonsAt;
    KeysAreAccounted(es, token);
  }

  predicate IsOrphaned(s: Option<State>, token: nat, slot: Slot) {
    && s.Some? && At(s.value, token, Ended(true))
    && s.value.calls[token].slot == slot && HasKey(s.value, token) && !IsFree(s.value, slot)
  }

  /** Both happen: a SET that throws, and a refused call's release that throws, leave a living key to nobody. */
  lemma OrphansHappen(token: nat, slot: Slot)
    ensures IsOrphaned(Exec(INITIAL, [AcquireError(token, slot, true)]), token, slot)
    ensures IsOrphaned(Exec(INITIAL, [Acquire(token, slot), ClaimRow(token, false), ReleaseError(token, false)]), token, slot)
  {
    assert Exec(INITIAL, []) == Some(INITIAL);
    hide Exec;
    ExecSnoc(INITIAL, [], INITIAL, AcquireError(token, slot, true));
    assert [] + [AcquireError(token, slot, true)] == [AcquireError(token, slot, true)];
    var es := [Acquire(token, slot)];
    var s := Apply(INITIAL, es[0]);
    ExecSnoc(INITIAL, [], INITIAL, es[0]);
    assert [] + es == es;
    ExecSnoc(INITIAL, es, s, ClaimRow(token, false));
    ExecSnoc(INITIAL, es + [ClaimRow(token, false)], Apply(s, ClaimRow(token, false)), ReleaseError(token, false));
    assert es + [ClaimRow(token, false)] + [ReleaseError(token, false)]
        == [Acquire(token, slot), ClaimRow(token, false), ReleaseError(token, false)];
  }

  // ---- the row lock ----

  predicate Clears(s: State, e: Event, config: string)
    requires Enabled(s, e)
  {
    || (e.ResetRow? && e.landed && s.calls[e.token].slot.config == config)
    || (e.EndRun? && e.landed && s.deliveries[e.delivery].slot.config == config)
  }

  /**
   Until a row lock expires, it stays as it is exactly as long as no step clears it. Steps of
   other slots' jobs do clear it, so this does not extend to exclusion across slots.
   */
  lemma RowLockHoldsUntilCleared(s: State, e: Event, config: string)
    requires Enabled(s, e) && config in s.locks && s.now <= s.locks[config].until
    ensures Clears(s, e, config) <==> config !in Apply(s, e).locks
    ensures !Clears(s, e, config) ==> Apply(s, e).locks[config] == s.locks[config]
  {
  }

  /** A claim succeeds exactly while the row is enabled and has no unexpired lock. */
  lemma ClaimTakesTheRow(s: State, token: nat, enabled: bool)
    requires At(s, token, Holding)
    ensures var s' := Apply(s, ClaimRow(token, enabled));
            var config := s.calls[token].slot.config;
            && (At(s', token, Claimed) <==> enabled && (config !in s.locks || s.locks[config].until < s.now))
            && (At(s', token, Claimed) ==> s'.locks[config] == RowLock(token, s.now + 600))
            && (!At(s', token, Claimed) ==> At(s', token, Releasing) && s'.locks == s.locks)
  {
  }

  /** The event at `i` clears the configuration's row lock. */
  predicate ClearsAt(s: State, es: seq<Event>, i: int, config: string) {
    && 0 <= i < |es| && Exec(s, es[..i]).Some? && Enabled(Exec(s, es[..i]).value, es[i])
    && Clears(Exec(s, es[..i]).value, es[i], config)
  }

  /** A row lock is still there after every run that stays within its time and does not clear it. */
  lemma {:induction false} RowLockHolds(s: State, es: seq<Event>, config: string)
    requires Exec(s, es).Some? && config in s.locks
    requires Exec(s, es).value.now <= s.locks[config].until
    requires forall i :: !ClearsAt(s, es, i, config)
    ensures config in Exec(s, es).value.locks && Exec(s, es).value.locks[config] == s.locks[config]
    decreases |es|
  {
    if es != [] {
      var front, e := es[..|es| - 1], es[|es| - 1];
      var before := Exec(s, front).value;
      hide Apply, Enabled, Clears;
      TimePasses(before, e);
      forall i
        ensures !ClearsAt(s, front, i, config)
      {
        assert 0 <= i < |front| ==> es[..i] == front[..i];
        assert !ClearsAt(s, es, i, config);
      }
      RowLockHolds(s, front, config);
      assert !ClearsAt(s, es, |front|, config);
      RowLockHoldsUntilCleared(before, e, config);
    }
  }

  /**
   Over any run: a call claims a row that was locked at the start of the run only after that lock's
   600 seconds are over, or after some step has cleared it.
   */
  lemma RowClaimsAreApart(s: State, es: seq<Event>, token: nat, enabled: bool)
    requires Exec(s, es).Some? && At(Exec(s, es).value, token, Holding)
    requires var t := Exec(s, es).value;
             && t.calls[token].slot.config in s.locks
             && At(Apply(t, ClaimRow(token, enabled)), token, Claimed)
    ensures var t := Exec(s, es).value;
            var config := t.calls[token].slot.config;
            s.locks[config].until < t.now || exists i :: ClearsAt(s, es, i, config)
  {
    var t := Exec(s, es).value;
    var config := t.calls[token].slot.config;
    ClaimTakesTheRow(t, token, enabled);
    hide Exec, Apply, ClearsAt;
    if t.now <= s.locks[config].until && !exists i :: ClearsAt(s, es, i, config) {
      RowLockHolds(s, es, config);
    }
  }

  /**
   Two slots of one configuration can be claimed at once: the end of an older slot's run clears
   the lock of a newer slot's claim, and a third slot claims the row beside it.
   */
  lemma SlotsOverlap(a: Slot, b: Slot, c: Slot)
    requires a.config == b.config == c.config && a != b && b != c && c != a
    ensures exists es, s :: Exec(INITIAL, es) == Some(s)
                            && 2 in s.calls && s.calls[2] == Call(b, s.now, Claimed)
                            && 3 in s.calls && s.calls[3] == Call(c, s.now, Claimed)
  {
    hide Exec;
    var es := SecondClaim(a, b);
    var s3 := Claimed2(a, b);
    var s4 := Apply(s3, EndRun(0, true));
    var s5 := Apply(s4, Acquire(3, c));
    var s6 := Apply(s5, ClaimRow(3, true));
    assert s6.calls[2] == Call(b, s6.now, Claimed) && s6.calls[3] == Call(c, s6.now, Claimed);
    es := Snoc(INITIAL, es, s3, EndRun(0, true));
    es := Snoc(INITIAL, es, s4, Acquire(3, c));
    es := Snoc(INITIAL, es, s5, ClaimRow(3, true));
  }

  /** The first slot is claimed and enqueued at time zero. */
  function Queued1(a: Slot): State {
    State(0, map[a := Key(1, 600)], map[a.config := RowLock(1, 600)], map[1 := Call(a, 0, Enqueued)],
          {a}, map[], {}, [])
  }

  /** Its run is under way. */
  function Running1(a: Slot): State {
    Queued1(a).(deliveries := map[0 := Running(a)], runs := {a}, checks := [a])
  }

  /** Ten minutes later the run still goes on, and the second slot is claimed. */
  function Claimed2(a: Slot, b: Slot): State {
    Running1(a).(now := 601, keys := map[a := Key(1, 600), b := Key(2, 1201)],
                 locks := map[a.config := RowLock(2, 1201)],
                 calls := map[1 := Call(a, 0, Enqueued), 2 := Call(b, 601, Claimed)])
  }

  lemma FirstClaim(a: Slot) returns (es: seq<Event>)
    ensures Exec(INITIAL, es) == Some(Queued1(a))
  {
    assert Exec(INITIAL, []) == Some(INITIAL);
    hide Exec;
    var s1 := Apply(INITIAL, Acquire(1, a));
    var s2 := Apply(s1, ClaimRow(1, true));
    es := Snoc(INITIAL, [], INITIAL, Acquire(1, a));
    es := Snoc(INITIAL, es, s1, ClaimRow(1, true));
    es := Snoc(INITIAL, es, s2, Enqueue(1));
    assert Apply(s2, Enqueue(1)) == Queued1(a);
  }

  lemma OldRun(a: Slot) returns (es: seq<Event>)
    ensures Exec(INITIAL, es) == Some(Running1(a))
  {
    hide Exec;
    es := FirstClaim(a);
    var s4 := Apply(Queued1(a), Deliver(0, a));
    es := Snoc(INITIAL, es, Queued1(a), Deliver(0, a));
    es := Snoc(INITIAL, es, s4, CreateRun(0));
    assert Apply(s4, CreateRun(0)) == Running1(a);
  }

  lemma SecondClaim(a: Slot, b: Slot) returns (es: seq<Event>)
    requires a.config == b.config && a != b
    ensures Exec(INITIAL, es) == Some(Claimed2(a, b))
  {
    hide Exec, Apply, Enabled, Running1, Claimed2, Held2;
    es := OldRun(a);
    TimeGoesBy(a);
    LaterAcquire(a, b);
    LaterClaim(a, b);
    es := Snoc(INITIAL, es, Running1(a), Tick(601));
    es := Snoc(INITIAL, es, Running1(a).(now := 601), Acquire(2, b));
    es := Snoc(INITIAL, es, Held2(a, b), ClaimRow(2, true));
  }

  /** The second slot's key is taken, and its row is not yet claimed. */
  function Held2(a: Slot, b: Slot): State {
    Running1(a).(now := 601, keys := map[a := Key(1, 600), b := Key(2, 1201)],
                 calls := map[1 := Call(a, 0, Enqueued), 2 := Call(b, 601, Holding)])
  }

  lemma TimeGoesBy(a: Slot)
    ensures Enabled(Running1(a), Tick(601)) && Apply(Running1(a), Tick(601)) == Running1(a).(now := 601)
  {
  }

  lemma LaterAcquire(a: Slot, b: Slot)
    requires a != b
    ensures var s := Running1(a).(now := 601);
            Enabled(s, Acquire(2, b)) && Apply(s, Acquire(2, b)) == Held2(a, b)
  {
  }

  lemma LaterClaim(a: Slot, b: Slot)
    requires a.config == b.config && a != b
    ensures Enabled(Held2(a, b), ClaimRow(2, true)) && Apply(Held2(a, b), ClaimRow(2, true)) == Claimed2(a, b)
  {
  }

  lemma Snoc(s: State, es: seq<Event>, t: State, e: Event) returns (fs: seq<Event>)
    requires Exec(s, es) == Some(t) && Enabled(t, e)
    ensures Exec(s, fs) == Some(Apply(t, e))
  {
    hide Exec, Apply, Enabled;
    fs := es + [e];
    ExecSnoc(s, es, t, e);
  }

  lemma ExecSnoc(s: State, es: seq<Event>, t: State, e: Event)
    requires Exec(s, es) == Some(t) && Enabled(t, e)
    ensures Exec(s, es + [e]) == Some(Apply(t, e))
  {
    hide Apply, Enabled;
    assert (es + [e])[..|es + [e]| - 1] == es;
  }

  // ---- runs ----

  /** A slot had at most one health check, and none without a run. */
  ghost predicate OneCheck(runs: set<Slot>, checks: seq<Slot>) {
    forall slot :: multiset(checks)[slot] <= if slot in runs then 1 else 0
  }

  /**
   However often a slot's job is enqueued, delivered and retried, and however the deliveries
   interleave, its configuration and slot get at most one run and one health check.
   */
  lemma OneRunPerSlot(es: seq<Event>, slot: Slot)
    requires Exec(INITIAL, es).Some?
    ensures var s := Exec(INITIAL, es).value;
            multiset(s.checks)[slot] <= if slot in s.runs then 1 else 0
  {
    hide Exec;
    ExecKeeps(es);
  }

  /**
   A slot that has a run is never checked again, also when the run failed and its job is retried:
   not even if the run's row was written by a command that reported an error, and the slot has not
   been checked at all.
   */
  lemma {:induction false} FailedSlotsAreNotRetried(s: State, es: seq<Event>, slot: Slot)
    requires slot in s.runs && Exec(s, es).Some?
    ensures var t := Exec(s, es).value;
            slot in t.runs && multiset(t.checks)[slot] == multiset(s.checks)[slot]
    decreases |es|
  {
    if es != [] {
      var before, e := Exec(s, es[..|es| - 1]).value, es[|es| - 1];
      hide Apply, Enabled;
      FailedSlotsAreNotRetried(s, es[..|es| - 1], slot);
      RunsStay(before, e, slot);
    }
  }

  lemma RunsStay(s: State, e: Event, slot: Slot)
    requires Enabled(s, e) && slot in s.runs
    ensures slot in Apply(s, e).runs && multiset(Apply(s, e).checks)[slot] == multiset(s.checks)[slot]
  {
  }

  /** A lost answer can leave a slot with a run that never checked anything. */
  lemma UncheckedRunHappens(a: Slot)
    ensures exists es, s :: Exec(INITIAL, es) == Some(s) && a in s.runs && s.checks == []
  {
    hide Exec;
    var es := FirstClaim(a);
    var s := Apply(Queued1(a), Deliver(0, a));
    es := Snoc(INITIAL, es, Queued1(a), Deliver(0, a));
    es := Snoc(INITIAL, es, s, CreateRunError(0, true));
  }
}
