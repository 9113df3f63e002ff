/**
 The transactional outbox: an event is written first and its delivery jobs are enqueued later, by
 the dispatcher of the API or of the vault worker, and by the replay of events left pending. Any
 number of dispatchers interleave, every statement is one atomic step, and a dispatcher that
 crashes is one that takes no further step. The endpoints that match an event are fixed.
 */
module Outbox {
  import opened Options

  datatype Status = Pending | Published | Failed

  /** A job's identifier is made of the event and the endpoint. */
  datatype Job = Job(event: nat, endpoint: nat)

  datatype Kind = Api | Emitter | Replay

  /** A dispatcher under way: the endpoints it has yet to enqueue, and whether something failed. */
  datatype Dispatcher = Dispatcher(kind: Kind, event: nat, todo: seq<nat>, flawed: bool)

  datatype State = State(
    events: map<nat, Status>,
    queue: set<Job>, // waiting, running, or finished and still kept
    added: seq<Job>, // every job that was ever new to the queue
    evicted: seq<Job>, // every finished job that the queue has dropped
    dispatchers: map<nat, Dispatcher>)

  /** `landed` says whether a command that reported an error had its effect all the same. */
  datatype Event =
    | Emit(event: nat, d: nat, kind: Kind, found: bool) // the row, and its first dispatcher
    | StartReplay(event: nat, d: nat, found: bool)
    | Add(d: nat)
    | AddError(d: nat, landed: bool)
    | Publish(d: nat)
    | PublishError(d: nat, landed: bool)
    | GiveUp(d: nat)
    | Evict(job: Job)

  const INITIAL := State(map[], {}, [], [], map[])

  predicate Enabled(s: State, e: Event) {
    match e
    case Emit(event, d, kind, _) => event !in s.events && d !in s.dispatchers && kind != Replay
    case StartReplay(event, d, _) => event in s.events && s.events[event] == Pending && d !in s.dispatchers
    case Add(d) => IsAdding(s, d)
    case AddError(d, _) => IsAdding(s, d)
    case Publish(d) => IsPublishing(s, d)
    case PublishError(d, _) => IsPublishing(s, d)
    case GiveUp(d) => d in s.dispatchers && s.dispatchers[d].kind == Replay && s.dispatchers[d].flawed
    case Evict(job) => job in s.queue
  }

  predicate IsAdding(s: State, d: nat) {
    && d in s.dispatchers && s.dispatchers[d].todo != []
    && (s.dispatchers[d].flawed ==> s.dispatchers[d].kind == Emitter)
  }

  predicate IsPublishing(s: State, d: nat) {
    d in s.dispatchers && s.dispatchers[d].todo == [] && !s.dispatchers[d].flawed
  }

  /** Adding a job the queue still knows changes nothing. */
  function Enqueued(s: State, job: Job): State {
    if job in s.queue then s else s.(queue := s.queue + {job}, added := s.added + [job])
  }

  /** After an error the API's dispatcher is gone, the emitter goes on, and the replay gives up. */
  function AfterError(s: State, d: nat, x: Dispatcher): State {
    match x.kind
    case Api => s.(dispatchers := s.dispatchers - {d})
    case _ => s.(dispatchers := s.dispatchers[d := x.(flawed := true)])
  }

  function Apply(s: State, e: Event, matching: nat -> seq<nat>): State
    requires Enabled(s, e)
  {
    match e
    case Emit(event, d, kind, found) =>
      s.(events := s.events[event := Pending],
         dispatchers := if found then s.dispatchers[d := Dispatcher(kind, event, matching(event), false)] else s.dispatchers)
    case StartReplay(event, d, found) =>
      s.(dispatchers := s.dispatchers[d := Dispatcher(Replay, event, matching(event), !found)])
    case Add(d) =>
      var x := s.dispatchers[d];
      Enqueued(s, Job(x.event, x.todo[0])).(dispatchers := s.dispatchers[d := x.(todo := x.todo[1..])])
    case AddError(d, landed) =>
      var x := s.dispatchers[d];
      AfterError(if landed then Enqueued(s, Job(x.event, x.todo[0])) else s, d, x.(todo := x.todo[1..]))
    case Publish(d) =>
      s.(events := s.events[s.dispatchers[d].event := Published], dispatchers := s.dispatchers - {d})
    case PublishError(d, landed) =>
      var x := s.dispatchers[d];
      var t := if landed then s.(events := s.events[x.event := Published]) else s;
      if x.kind == Replay then AfterError(t, d, x) else t.(dispatchers := t.dispatchers - {d})
    case GiveUp(d) =>
      s.(events := s.events[s.dispatchers[d].event := Failed], dispatchers := s.dispatchers - {d})
    case Evict(job) => s.(queue := s.queue - {job}, evicted := s.evicted + [job])
  }

  predicate Possible(s: State, es: seq<Event>, matching: nat -> seq<nat>)
    decreases |es|
  {
    es == [] || (Enabled(s, es[0]) && Possible(Apply(s, es[0], matching), es[1..], matching))
  }

  function Exec(s: State, es: seq<Event>, matching: nat -> seq<nat>): State
    requires Possible(s, es, matching)
    decreases |es|
  {
    if es == [] then s else Exec(Apply(s, es[0], matching), es[1..], matching)
  }

  // ---- the invariant ----

  /** Only jobs that one full dispatch of their event would enqueue. */
  ghost predicate OnlyMatching(added: seq<Job>, matching: nat -> seq<nat>) {
    forall j :: j in added ==> j.endpoint in matching(j.event)
  }

  /** A job is new to the queue again only after it was dropped. */
  ghost predicate Counted(queue: set<Job>, added: seq<Job>, evicted: seq<Job>) {
    forall j :: multiset(added)[j] == multiset(evicted)[j] + if j in queue then 1 else 0
  }

  /** What a dispatcher has behind it, it has added, unless something failed. */
  ghost predicate OnTheWay(dispatchers: map<nat, Dispatcher>, added: seq<Job>, matching: nat -> seq<nat>) {
    forall d :: d in dispatchers ==> Progress(dispatchers[d], added, matching)
  }

  ghost predicate Progress(x: Dispatcher, added: seq<Job>, matching: nat -> seq<nat>) {
    && (forall t :: t in x.todo ==> t in matching(x.event))
    && (!x.flawed ==> forall t :: t in matching(x.event) ==> t in x.todo || Job(x.event, t) in added)
  }

  ghost predicate PublishedInFull(events: map<nat, Status>, added: seq<Job>, matching: nat -> seq<nat>) {
    forall e :: e in events && events[e] == Published ==> InFull(e, added, matching)
  }

  ghost predicate InFull(e: nat, added: seq<Job>, matching: nat -> seq<nat>) {
    forall t :: t in matching(e) ==> Job(e, t) in added
  }

  ghost predicate Inv(s: State, matching: nat -> seq<nat>) {
    && OnlyMatching(s.added, matching)
    && Counted(s.queue, s.added, s.evicted)
    && OnTheWay(s.dispatchers, s.added, matching)
    && PublishedInFull(s.events, s.added, matching)
  }

  lemma EnqueuedKeeps(s: State, job: Job, matching: nat -> seq<nat>)
    requires Inv(s, matching) && job.endpoint in matching(job.event)
    ensures Inv(Enqueued(s, job), matching) && job in Enqueued(s, job).added
    ensures Enqueued(s, job).dispatchers == s.dispatchers && Enqueued(s, job).events == s.events
  {
    var t := Enqueued(s, job);
    assert job in s.queue ==> multiset(s.added)[job] > 0;
    forall d | d in t.dispatchers
      ensures Progress(t.dispatchers[d], t.added, matching)
    {
      assert Progress(s.dispatchers[d], s.added, matching);
    }
    forall e | e in t.events && t.events[e] == Published
      ensures InFull(e, t.added, matching)
    {
      assert InFull(e, s.added, matching);
    }
  }

  lemma ApplyKeeps(s: State, e: Event, matching: nat -> seq<nat>)
    requires Inv(s, matching) && Enabled(s, e)
    ensures Inv(Apply(s, e, matching), matching)
  {
    match e
    case Add(d) => AddKeeps(s, d, matching);
    case AddError(d, landed) => AddErrorKeeps(s, d, landed, matching);
    case Publish(d) => PublishKeeps(s, d, matching);
    case PublishError(d, landed) => PublishKeeps(s, d, matching);
    case Evict(_) =>
      hide OnlyMatching, OnTheWay, PublishedInFull;
    case _ =>
      hide OnlyMatching, Counted, InFull;
  }

  lemma StepProgress(x: Dispatcher, added: seq<Job>, matching: nat -> seq<nat>)
    requires Progress(x, added, matching) && x.todo != []
    ensures x.todo[0] in matching(x.event)
    ensures Progress(x.(todo := x.todo[1..], flawed := true), added, matching)
    ensures Job(x.event, x.todo[0]) in added ==> Progress(x.(todo := x.todo[1..]), added, matching)
  {
  }

  lemma AddKeeps(s: State, d: nat, matching: nat -> seq<nat>)
    requires Inv(s, matching) && IsAdding(s, d)
    ensures Inv(Apply(s, Add(d), matching), matching)
  {
    hide OnlyMatching, Counted, PublishedInFull, Progress, Enqueued;
    var x := s.dispatchers[d];
    StepProgress(x, s.added, matching);
    var job := Job(x.event, x.todo[0]);
    EnqueuedKeeps(s, job, matching);
    StepProgress(x, Enqueued(s, job).added, matching);
  }

  lemma AddErrorKeeps(s: State, d: nat, landed: bool, matching: nat -> seq<nat>)
    requires Inv(s, matching) && IsAdding(s, d)
    ensures Inv(Apply(s, AddError(d, landed), matching), matching)
  {
    hide OnlyMatching, Counted, PublishedInFull, Progress, Enqueued;
    var x := s.dispatchers[d];
    StepProgress(x, s.added, matching);
    var job := Job(x.event, x.todo[0]);
    var t := if landed then Enqueued(s, job) else s;
    if landed {
      EnqueuedKeeps(s, job, matching);
    }
    StepProgress(x, t.added, matching);
  }

  lemma PublishKeeps(s: State, d: nat, matching: nat -> seq<nat>)
    requires Inv(s, matching) && IsPublishing(s, d)
    ensures Inv(Apply(s, Publish(d), matching), matching)
    ensures forall landed :: Inv(Apply(s, PublishError(d, landed), matching), matching)
  {
    hide OnlyMatching, Counted;
    var x := s.dispatchers[d];
    assert Progress(x, s.added, matching);
    assert InFull(x.event, s.added, matching);
    hide InFull;
  }

  lemma {:induction false} ExecKeeps(s: State, es: seq<Event>, matching: nat -> seq<nat>)
    requires Possible(s, es, matching) && Inv(s, matching)
    ensures Inv(Exec(s, es, matching), matching)
    decreases |es|
  {
    if es != [] {
      ApplyKeeps(s, es[0], matching);
      hide Apply, Enabled, Inv;
      ExecKeeps(Apply(s, es[0], matching), es[1..], matching);
    }
  }

  // ---- main results ----

  /**
   After any mix of partial dispatches, crashes and replays: the jobs are among those of one full
   dispatch; a published event has all of its jobs; and a job was new to the queue once more than
   it was dropped from it, if the queue knows it now. So without drops no job is there twice.
   */
  lemma DispatchIsConfluent(es: seq<Event>, matching: nat -> seq<nat>, event: nat, endpoint: nat)
    requires Possible(INITIAL, es, matching)
    ensures var s, j := Exec(INITIAL, es, matching), Job(event, endpoint);
            && (j in s.added ==> endpoint in matching(event))
            && (event in s.events && s.events[event] == Published && endpoint in matching(event) ==> j in s.added)
            && multiset(s.added)[j] == multiset(s.evicted)[j] + (if j in s.queue then 1 else 0)
  {
    hide Exec, Possible;
    ExecKeeps(INITIAL, es, matching);
    var s := Exec(INITIAL, es, matching);
    if event in s.events && s.events[event] == Published {
      assert InFull(event, s.added, matching);
    }
  }

  /** The steps of a dispatcher that meets no error. */
  function Smooth(d: nat, todo: seq<nat>): seq<Event>
    decreases |todo|
  {
    if todo == [] then [Publish(d)] else [Add(d)] + Smooth(d, todo[1..])
  }

  lemma {:induction false} SmoothPublishes(s: State, d: nat, matching: nat -> seq<nat>)
    requires Inv(s, matching) && d in s.dispatchers && !s.dispatchers[d].flawed
    ensures var event := s.dispatchers[d].event;
            var es := Smooth(d, s.dispatchers[d].todo);
            && Possible(s, es, matching)
            && event in Exec(s, es, matching).events && Exec(s, es, matching).events[event] == Published
            && InFull(event, Exec(s, es, matching).added, matching)
    decreases |s.dispatchers[d].todo|
  {
    var x := s.dispatchers[d];
    var es := Smooth(d, x.todo);
    ApplyKeeps(s, es[0], matching);
    var t := Apply(s, es[0], matching);
    if x.todo == [] {
      assert es[1..] == [] && Exec(s, es, matching) == t;
      assert InFull(x.event, t.added, matching);
    } else {
      assert es[1..] == Smooth(d, x.todo[1..]);
      hide Inv, Enqueued, InFull;
      SmoothPublishes(t, d, matching);
    }
  }

  /** Whatever is left over of earlier dispatches, one replay without errors completes a pending event. */
  lemma ReplayCompletes(s: State, event: nat, d: nat, matching: nat -> seq<nat>)
    requires Inv(s, matching) && Enabled(s, StartReplay(event, d, true))
    ensures var es := [StartReplay(event, d, true)] + Smooth(d, matching(event));
            && Possible(s, es, matching)
            && event in Exec(s, es, matching).events && Exec(s, es, matching).events[event] == Published
            && InFull(event, Exec(s, es, matching).added, matching)
  {
    hide InFull, Smooth;
    var es := [StartReplay(event, d, true)] + Smooth(d, matching(event));
    ApplyKeeps(s, es[0], matching);
    assert es[1..] == Smooth(d, matching(event));
    hide Inv;
    SmoothPublishes(Apply(s, es[0], matching), d, matching);
  }

  // ---- events that are given up ----

  ghost predicate NobodyDispatches(s: State, event: nat) {
    forall d :: d in s.dispatchers ==> s.dispatchers[d].event != event
  }

  ghost predicate SameJobs(a: seq<Job>, b: seq<Job>, event: nat) {
    forall t :: Job(event, t) in a <==> Job(event, t) in b
  }

  lemma AbandonedStep(s: State, e: Event, matching: nat -> seq<nat>, event: nat)
    requires Enabled(s, e) && event in s.events && s.events[event] != Pending && NobodyDispatches(s, event)
    ensures var t := Apply(s, e, matching);
            && event in t.events && t.events[event] == s.events[event] && NobodyDispatches(t, event)
            && SameJobs(s.added, t.added, event)
  {
  }

  /**
   An event marked failed that no dispatcher works on any more stays failed, and no job of it is
   ever enqueued again: the replay takes up pending events only.
   */
  lemma {:induction false} FailedEventsAreAbandoned(s: State, es: seq<Event>, matching: nat -> seq<nat>, event: nat)
    requires Possible(s, es, matching)
    requires event in s.events && s.events[event] == Failed && NobodyDispatches(s, event)
    ensures var t := Exec(s, es, matching);
            event in t.events && t.events[event] == Failed && SameJobs(s.added, t.added, event)
    decreases |es|
  {
    if es != [] {
      AbandonedStep(s, es[0], matching, event);
      hide Apply, Enabled, NobodyDispatches;
      FailedEventsAreAbandoned(Apply(s, es[0], matching), es[1..], matching, event);
    }
  }

  /** A crash and one queue error during the replay are enough: the event is lost. */
  lemma OneReplayErrorLosesTheEvent(matching: nat -> seq<nat>)
    requires matching(0) != []
    ensures var es := [Emit(0, 0, Emitter, false), StartReplay(0, 1, true), AddError(1, false), GiveUp(1)];
            && Possible(INITIAL, es, matching)
            && var s := Exec(INITIAL, es, matching);
               s.events == map[0 := Failed] && s.added == [] && NobodyDispatches(s, 0)
  {
    var es := [Emit(0, 0, Emitter, false), StartReplay(0, 1, true), AddError(1, false), GiveUp(1)];
    assert es[1..] == [StartReplay(0, 1, true), AddError(1, false), GiveUp(1)];
    assert es[1..][1..] == [AddError(1, false), GiveUp(1)];
    assert es[1..][1..][1..] == [GiveUp(1)];
    assert es[1..][1..][1..][1..] == [];
    var s1 := Apply(INITIAL, es[0], matching);
    var s2 := Apply(s1, StartReplay(0, 1, true), matching);
    var s3 := Apply(s2, AddError(1, false), matching);
    var s4 := Apply(s3, GiveUp(1), matching);
    assert Possible(s3, [GiveUp(1)], matching) && Exec(s3, [GiveUp(1)], matching) == s4;
    assert Possible(s2, [AddError(1, false), GiveUp(1)], matching);
  }
}
