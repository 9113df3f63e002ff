/** The three dispatchers: each is a run of the outbox protocol's steps. */
module OutboxDispatch {
  import opened Commands
  import opened Options
  import opened Outbox

  /** The answers one dispatch meets; the lookup of the endpoints may fail as well. */
  datatype Answers = Answers(found: bool, adds: seq<Answer>, publish: Answer)

  /** Some run of the protocol leads from one state to the other. */
  ghost predicate Leads(s: State, t: State, matching: nat -> seq<nat>) {
    exists es :: Possible(s, es, matching) && Exec(s, es, matching) == t
  }

  lemma LeadsNowhere(s: State, matching: nat -> seq<nat>)
    ensures Leads(s, s, matching)
  {
    assert Possible(s, [], matching) && Exec(s, [], matching) == s;
  }

  lemma LeadsOn(s: State, t: State, e: Event, matching: nat -> seq<nat>)
    requires Leads(s, t, matching) && Enabled(t, e)
    ensures Leads(s, Apply(t, e, matching), matching)
  {
    var es :| Possible(s, es, matching) && Exec(s, es, matching) == t;
    Snoc(s, es, e, matching);
  }

  lemma {:induction false} Snoc(s: State, es: seq<Event>, e: Event, matching: nat -> seq<nat>)
    requires Possible(s, es, matching) && Enabled(Exec(s, es, matching), e)
    ensures Possible(s, es + [e], matching)
    ensures Exec(s, es + [e], matching) == Apply(Exec(s, es, matching), e, matching)
    decreases |es|
  {
    hide Apply, Enabled;
    if es == [] {
      assert es + [e] == [e] && [e][1..] == [];
    } else {
      assert (es + [e])[0] == es[0] && (es + [e])[1..] == es[1..] + [e];
      Snoc(Apply(s, es[0], matching), es[1..], e, matching);
    }
  }

  predicate AllDone(adds: seq<Answer>) {
    forall k :: 0 <= k < |adds| ==> adds[k].Done?
  }

  function AddEvent(d: nat, a: Answer): Event {
    if a.Done? then Add(d) else AddError(d, a.landed)
  }

  function PublishEvent(d: nat, a: Answer): Event {
    if a.Done? then Publish(d) else PublishError(d, a.landed)
  }

  class Store {
    var events: map<nat, Status>
    var queue: set<Job>
    ghost var added: seq<Job>
    ghost var evicted: seq<Job>
    ghost var dispatchers: map<nat, Dispatcher>

    ghost function Model(): State
      reads this
    {
      State(events, queue, added, evicted, dispatchers)
    }

    constructor ()
      ensures Model() == INITIAL
    {
      events, queue, added, evicted, dispatchers := map[], {}, [], [], map[];
    }

    /** Adds the next job of a dispatch; a job the queue knows by its identifier is not added again. */
    method AddJob(job: Job, answer: Answer, ghost d: nat, ghost matching: nat -> seq<nat>) returns (ok: bool)
      requires IsAdding(Model(), d) && job == Job(dispatchers[d].event, dispatchers[d].todo[0])
      modifies this
      ensures Model() == Apply(old(Model()), AddEvent(d, answer), matching)
      ensures ok == answer.Done? && events == old(events)
      ensures old(queue) <= queue && (ok ==> job in queue)
      ensures dispatchers == AfterAdd(old(dispatchers), d, ok)
    {
      ok := answer.Done?;
      if HasEffect(answer) && job !in queue {
        queue := queue + {job};
        added := added + [job];
      }
      dispatchers := AfterAdd(dispatchers, d, ok);
    }

    static ghost function AfterAdd(ds: map<nat, Dispatcher>, d: nat, ok: bool): map<nat, Dispatcher>
      requires d in ds && ds[d].todo != []
    {
      var x := ds[d].(todo := ds[d].todo[1..]);
      if ok then ds[d := x] else if x.kind == Api then ds - {d} else ds[d := x.(flawed := true)]
    }

    /** The unconditional update of the status. */
    method SetPublished(event: nat, answer: Answer, ghost d: nat, ghost matching: nat -> seq<nat>) returns (ok: bool)
      requires IsPublishing(Model(), d) && dispatchers[d].event == event
      modifies this
      ensures Model() == Apply(old(Model()), PublishEvent(d, answer), matching)
      ensures ok == answer.Done? && queue == old(queue)
      ensures events == if HasEffect(answer) then old(events)[event := Published] else old(events)
      ensures dispatchers == if !ok && old(dispatchers)[d].kind == Replay
                             then old(dispatchers)[d := old(dispatchers)[d].(flawed := true)] else old(dispatchers) - {d}
    {
      ok := answer.Done?;
      if HasEffect(answer) {
        events := events[event := Published];
      }
      if !ok && dispatchers[d].kind == Replay {
        dispatchers := dispatchers[d := dispatchers[d].(flawed := true)];
      } else {
        dispatchers := dispatchers - {d};
      }
    }

    /**
     The API's dispatcher: an event known to be published is left alone; otherwise, unless an error
     is thrown, every matching endpoint gets its job and then the event is published.
     */
    method DispatchEvent(event: nat, endpoints: seq<nat>, seen: Status, a: Answers, ghost d: nat,
                         ghost matching: nat -> seq<nat>)
      returns (threw: bool)
      requires |a.adds| == |endpoints|
      requires d in dispatchers && dispatchers[d] == Dispatcher(Api, event, endpoints, false)
      modifies this
      ensures Leads(old(Model()), Model(), matching)
      ensures seen == Published ==> !threw && Model() == old(Model())
      ensures seen != Published && !threw ==> events == old(events)[event := Published]
                                              && forall t :: t in endpoints ==> Job(event, t) in queue
      ensures seen != Published ==> (threw <==> !AllDone(a.adds) || a.publish.Error?)
    {
      hide Leads, Apply;
      LeadsNowhere(Model(), matching);
      if seen == Published {
        return false;
      }
      for i := 0 to |endpoints|
        invariant Leads(old(Model()), Model(), matching)
        invariant d in dispatchers && dispatchers[d] == Dispatcher(Api, event, endpoints[i..], false)
        invariant events == old(events)
        invariant forall k :: 0 <= k < i ==> Job(event, endpoints[k]) in queue && a.adds[k].Done?
      {
        assert endpoints[i..][0] == endpoints[i] && endpoints[i..][1..] == endpoints[i + 1..];
        LeadsOn(old(Model()), Model(), AddEvent(d, a.adds[i]), matching);
        var ok := AddJob(Job(event, endpoints[i]), a.adds[i], d, matching);
        if !ok {
          return true;
        }
      }
      LeadsOn(old(Model()), Model(), PublishEvent(d, a.publish), matching);
      var published := SetPublished(event, a.publish, d, matching);
      threw := !published;
    }

    /** The vault worker's dispatcher goes on after an error, and then leaves the event pending. */
    method DispatchOutboxEvent(event: nat, endpoints: seq<nat>, a: Answers, ghost d: nat, ghost matching: nat -> seq<nat>)
      returns (failed: bool)
      requires |a.adds| == |endpoints|
      requires d in dispatchers && dispatchers[d] == Dispatcher(Emitter, event, endpoints, false)
      modifies this
      ensures Leads(old(Model()), Model(), matching)
      ensures failed <==> !AllDone(a.adds)
      ensures forall k :: 0 <= k < |endpoints| && a.adds[k].Done? ==> Job(event, endpoints[k]) in queue
      ensures events == if !failed && HasEffect(a.publish)
                        then old(events)[event := Published] else old(events)
    {
      hide Leads, Apply;
      LeadsNowhere(Model(), matching);
      failed := false;
      for i := 0 to |endpoints|
        invariant Leads(old(Model()), Model(), matching)
        invariant d in dispatchers && dispatchers[d] == Dispatcher(Emitter, event, endpoints[i..], failed)
        invariant events == old(events)
        invariant failed <==> exists k :: 0 <= k < i && a.adds[k].Error?
        invariant forall k :: 0 <= k < i && a.adds[k].Done? ==> Job(event, endpoints[k]) in queue
      {
        assert endpoints[i..][0] == endpoints[i] && endpoints[i..][1..] == endpoints[i + 1..];
        LeadsOn(old(Model()), Model(), AddEvent(d, a.adds[i]), matching);
        var ok := AddJob(Job(event, endpoints[i]), a.adds[i], d, matching);
        if !ok {
          failed := true;
        }
      }
      if !failed {
        LeadsOn(old(Model()), Model(), PublishEvent(d, a.publish), matching);
        var _ := SetPublished(event, a.publish, d, matching);
      }
    }

    /** One event of a replay: it ends published, or failed after any error. */
    method ReplayEvent(event: nat, endpoints: seq<nat>, a: Answers, ghost d: nat, ghost matching: nat -> seq<nat>)
      returns (replayed: bool)
      requires endpoints == matching(event) && |a.adds| == |endpoints|
      requires event in events && events[event] == Pending && d !in dispatchers
      modifies this
      ensures Leads(old(Model()), Model(), matching)
      ensures replayed <==> a.found && AllDone(a.adds) && a.publish.Done?
      ensures events == old(events)[event := if replayed then Published else Failed]
      ensures replayed ==> forall t :: t in endpoints ==> Job(event, t) in queue
      ensures old(queue) <= queue && dispatchers == old(dispatchers)
    {
      hide Leads;
      LeadsNowhere(Model(), matching);
      LeadsOn(old(Model()), Model(), StartReplay(event, d, a.found), matching);
      dispatchers := dispatchers[d := Dispatcher(Replay, event, endpoints, !a.found)];
      assert dispatchers - {d} == old(dispatchers);
      replayed := a.found;
      hide Apply, AllDone;
      if replayed {
        ghost var started := Model();
        replayed := EnqueueAll(event, endpoints, a.adds, d, matching);
        LeadsTransitive(old(Model()), started, Model(), matching);
      }
      if replayed {
        LeadsOn(old(Model()), Model(), PublishEvent(d, a.publish), matching);
        replayed := SetPublished(event, a.publish, d, matching);
      }
      if !replayed {
        assert dispatchers - {d} == old(dispatchers);
        LeadsGivingUp(old(Model()), Model(), d, matching);
        events := events[event := Failed];
        dispatchers := dispatchers - {d};
      }
    }

    /** The replay's loop over the endpoints, up to the first error. */
    method EnqueueAll(event: nat, endpoints: seq<nat>, adds: seq<Answer>, ghost d: nat, ghost matching: nat -> seq<nat>)
      returns (ok: bool)
      requires |adds| == |endpoints|
      requires d in dispatchers && dispatchers[d] == Dispatcher(Replay, event, endpoints, false)
      modifies this
      ensures Leads(old(Model()), Model(), matching)
      ensures ok <==> AllDone(adds)
      ensures events == old(events) && old(queue) <= queue
      ensures ok ==> forall t :: t in endpoints ==> Job(event, t) in queue
      ensures d in dispatchers && dispatchers - {d} == old(dispatchers) - {d}
      ensures var x := dispatchers[d]; x.kind == Replay && x.event == event && x.flawed == !ok && (ok ==> x.todo == [])
    {
      hide Leads, Apply;
      LeadsNowhere(Model(), matching);
      ok := true;
      for i := 0 to |endpoints|
        invariant ok && Leads(old(Model()), Model(), matching)
        invariant events == old(events) && old(queue) <= queue
        invariant d in dispatchers && dispatchers - {d} == old(dispatchers) - {d}
        invariant dispatchers[d] == Dispatcher(Replay, event, endpoints[i..], false)
        invariant forall k :: 0 <= k < i ==> Job(event, endpoints[k]) in queue && adds[k].Done?
      {
        assert endpoints[i..][0] == endpoints[i] && endpoints[i..][1..] == endpoints[i + 1..];
        LeadsOn(old(Model()), Model(), AddEvent(d, adds[i]), matching);
        ok := AddJob(Job(event, endpoints[i]), adds[i], d, matching);
        if !ok {
          return;
        }
      }
    }

    /** One replay of the events it found pending: each ends published, and is counted, or failed. */
    method ReplayPendingOutboxEvents(pending: seq<nat>, matching: nat -> seq<nat>, answers: seq<Answers>, ghost d: nat)
      returns (replayed: nat)
      requires |answers| == |pending| && d !in dispatchers
      requires forall i :: 0 <= i < |pending| ==> |answers[i].adds| == |matching(pending[i])|
      requires Distinct(pending) && Tally(events, pending, 0, 0)
      modifies this
      ensures Leads(old(Model()), Model(), matching)
      ensures Tally(events, pending, |pending|, replayed)
      ensures Others(old(events), events, pending)
    {
      hide Leads, Tally, Others;
      replayed := 0;
      LeadsNowhere(Model(), matching);
      OthersSame(events, pending);
      for i := 0 to |pending|
        invariant Leads(old(Model()), Model(), matching) && d !in dispatchers
        invariant Tally(events, pending, i, replayed)
        invariant Others(old(events), events, pending)
      {
        ghost var before := Model();
        TallyNext(events, pending, i, replayed);
        OthersKept(old(events), events, pending, i);
        var ok := ReplayEvent(pending[i], matching(pending[i]), answers[i], d, matching);
        LeadsTransitive(old(Model()), before, Model(), matching);
        if ok {
          replayed := replayed + 1;
        }
      }
    }
  }

  predicate Distinct(s: seq<nat>) {
    forall i, j :: 0 <= i < j < |s| ==> s[i] != s[j]
  }

  function PublishedBelow(events: map<nat, Status>, pending: seq<nat>, i: nat): set<int>
    requires i <= |pending|
  {
    set k | 0 <= k < i && Ended(events, pending[k], Published)
  }

  ghost predicate AllEnded(events: map<nat, Status>, pending: seq<nat>, i: nat) {
    forall k :: 0 <= k < i && k < |pending| ==> Ended(events, pending[k], Published) || Ended(events, pending[k], Failed)
  }

  ghost predicate AllPending(events: map<nat, Status>, pending: seq<nat>, i: nat) {
    forall k :: i <= k < |pending| ==> Ended(events, pending[k], Pending)
  }

  /** The first `i` events have ended, `n` of them published, and the others are pending. */
  ghost predicate Tally(events: map<nat, Status>, pending: seq<nat>, i: nat, n: nat) {
    i <= |pending| && AllEnded(events, pending, i) && AllPending(events, pending, i) && n == |PublishedBelow(events, pending, i)|
  }

  lemma PublishedNext(events: map<nat, Status>, pending: seq<nat>, i: nat, s: Status)
    requires i < |pending| && Distinct(pending)
    ensures |PublishedBelow(events[pending[i] := s], pending, i + 1)| ==
              |PublishedBelow(events, pending, i)| + if s == Published then 1 else 0
  {
    forall k | 0 <= k < i
      ensures Ended(events[pending[i] := s], pending[k], Published) == Ended(events, pending[k], Published)
    {
      assert pending[k] != pending[i];
    }
    assert Ended(events[pending[i] := s], pending[i], Published) == (s == Published);
    hide Ended;
    assert PublishedBelow(events[pending[i] := s], pending, i + 1)
        == PublishedBelow(events, pending, i) + if s == Published then {i} else {};
  }

  lemma EndedNext(events: map<nat, Status>, pending: seq<nat>, i: nat, s: Status)
    requires i < |pending| && Distinct(pending) && (s == Published || s == Failed)
    requires AllEnded(events, pending, i) && AllPending(events, pending, i)
    ensures AllEnded(events[pending[i] := s], pending, i + 1) && AllPending(events[pending[i] := s], pending, i + 1)
  {
  }

  lemma TallyNext(events: map<nat, Status>, pending: seq<nat>, i: nat, n: nat)
    requires Tally(events, pending, i, n) && i < |pending| && Distinct(pending)
    ensures Ended(events, pending[i], Pending)
    ensures Tally(events[pending[i] := Published], pending, i + 1, n + 1)
    ensures Tally(events[pending[i] := Failed], pending, i + 1, n)
  {
    assert Ended(events, pending[i], Pending);
    hide AllEnded, AllPending, PublishedBelow, Ended, Distinct;
    PublishedNext(events, pending, i, Published);
    PublishedNext(events, pending, i, Failed);
    EndedNext(events, pending, i, Published);
    EndedNext(events, pending, i, Failed);
  }

  /** No other event has changed. */
  ghost predicate Others(before: map<nat, Status>, after: map<nat, Status>, pending: seq<nat>) {
    forall e :: e in before && e !in pending ==> e in after && after[e] == before[e]
  }

  lemma OthersSame(events: map<nat, Status>, pending: seq<nat>)
    ensures Others(events, events, pending)
  {
  }

  lemma OthersKept(before: map<nat, Status>, after: map<nat, Status>, pending: seq<nat>, i: nat)
    requires Others(before, after, pending) && i < |pending|
    ensures Others(before, after[pending[i] := Published], pending)
    ensures Others(before, after[pending[i] := Failed], pending)
  {
  }

  predicate Ended(events: map<nat, Status>, event: nat, s: Status) {
    event in events && events[event] == s
  }

  lemma LeadsTransitive(s: State, t: State, u: State, matching: nat -> seq<nat>)
    requires Leads(s, t, matching) && Leads(t, u, matching)
    ensures Leads(s, u, matching)
  {
    var es :| Possible(s, es, matching) && Exec(s, es, matching) == t;
    var fs :| Possible(t, fs, matching) && Exec(t, fs, matching) == u;
    Concat(s, es, fs, matching);
  }

  lemma {:induction false} Concat(s: State, es: seq<Event>, fs: seq<Event>, matching: nat -> seq<nat>)
    requires Possible(s, es, matching) && Possible(Exec(s, es, matching), fs, matching)
    ensures Possible(s, es + fs, matching)
    ensures Exec(s, es + fs, matching) == Exec(Exec(s, es, matching), fs, matching)
    decreases |es|
  {
    hide Apply, Enabled;
    if es == [] {
      assert es + fs == fs;
    } else {
      assert (es + fs)[0] == es[0] && (es + fs)[1..] == es[1..] + fs;
      Concat(Apply(s, es[0], matching), es[1..], fs, matching);
    }
  }

  lemma LeadsGivingUp(s: State, t: State, d: nat, matching: nat -> seq<nat>)
    requires Leads(s, t, matching) && Enabled(t, GiveUp(d))
    ensures Leads(s, t.(events := t.events[t.dispatchers[d].event := Failed], dispatchers := t.dispatchers - {d}),
                  matching)
  {
    hide Leads;
    LeadsOn(s, t, GiveUp(d), matching);
  }
}
