/** The limiter of the public API: every request counts against its key and its organisation. */
module ApiKeyLimits {
  import opened Options
  import opened FixedWindow
  import opened Times

  datatype Category = AuditRun | MonitoringRun | Read

  datatype Limits = Limits(keyLimit: nat, orgLimit: nat, windowMs: nat)

  function LimitsOf(c: Category): Limits {
    match c
    case AuditRun => Limits(10, 30, 60_000)
    case MonitoringRun => Limits(15, 45, 60_000)
    case Read => Limits(120, 300, 60_000)
  }

  /** The names of the counters in Redis. */
  datatype Name = ApiKey(id: string, category: Category) | Organization(id: string, category: Category)

  function Window(name: Name): nat {
    LimitsOf(name.category).windowMs
  }

  function Min(a: nat, b: nat): nat {
    if a < b then a else b
  }

  function Left(limit: nat, count: nat): nat {
    if count < limit then limit - count else 0
  }

  /** The counter is what its increments make it. */
  ghost predicate Tracks(c: Counter, ts: seq<nat>, window: nat, last: nat) {
    && ts != [] && IsOrdered(ts) && ts[|ts| - 1] <= last
    && c == Hits(ABSENT, ts, window)
  }

  class ApiKeyService {
    var counters: map<Name, Counter>
    ghost var history: map<Name, seq<nat>> // when each counter was incremented
    ghost var last: nat

    ghost function Of(name: Name): seq<nat>
      reads this
    {
      if name in history then history[name] else []
    }

    /** Every counter is what its whole history of increments makes it. */
    ghost predicate Valid()
      reads this
    {
      && counters.Keys == history.Keys
      && forall name :: name in history ==> Tracks(counters[name], history[name], Window(name), last)
    }

    constructor ()
      ensures Valid() && history == map[] && last == 0
    {
      counters, history, last := map[], map[], 0;
    }

    /** INCR, with EXPIRE after the first. */
    method Increment(name: Name, now: nat) returns (count: nat)
      requires Valid() && last <= now
      modifies this
      ensures Valid() && last == now
      ensures history == old(history)[name := old(Of(name)) + [now]]
      ensures count == Place(Of(name), Window(name))
    {
      hide Tracks, Place;
      ghost var ts := Of(name);
      var c := if name in counters then counters[name] else ABSENT;
      ghost var before := c;
      CounterFacts(ts, c, last, now, Window(name));
      if c.expires.Some? && c.expires.value <= now {
        c := Counter(0, None);
      }
      count := c.count + 1;
      c := Counter(count, c.expires);
      if count == 1 {
        c := Counter(count, Some(now + LimitsOf(name.category).windowMs));
      }
      assert c == Hit(before, now, Window(name), true);
      hide Hit, Window;
      TracksNext(history, counters, last, now, name, ts + [now], c);
      counters := counters[name := c];
      history := history[name := ts + [now]];
      last := now;
    }

    /**
     A request passes exactly if it is among the first 10, 15 or 120 of its minute for its key,
     and among the first 30, 45 or 300 of its minute for its organisation.
     */
    method CheckRateLimit(apiKey: string, organization: string, category: Category, now: nat)
      returns (allowed: bool, remaining: nat)
      requires Valid() && last <= now
      modifies this
      ensures Valid() && last == now
      ensures var k, o := ApiKey(apiKey, category), Organization(organization, category);
              var keyLimit := match category case AuditRun => 10 case MonitoringRun => 15 case Read => 120;
              var orgLimit := match category case AuditRun => 30 case MonitoringRun => 45 case Read => 300;
              && history == old(history)[k := old(Of(k)) + [now]][o := old(Of(o)) + [now]]
              && (allowed <==> Allows(Of(k), |Of(k)| - 1, 60_000, keyLimit) && Allows(Of(o), |Of(o)| - 1, 60_000, orgLimit))
              && remaining <= keyLimit && remaining <= orgLimit
              && (remaining > 0 <==> Place(Of(k), 60_000) < keyLimit && Place(Of(o), 60_000) < orgLimit)
              && (remaining > 0 ==> remaining + Place(Of(k), 60_000) == keyLimit || remaining + Place(Of(o), 60_000) == orgLimit)
    {
      hide Hits, IsOrdered, Tracks, Valid;
      var limits := LimitsOf(category);
      var keyCount := Increment(ApiKey(apiKey, category), now);
      var orgCount := Increment(Organization(organization, category), now);
      remaining := Min(Left(limits.keyLimit, keyCount), Left(limits.orgLimit, orgCount));
      allowed := keyCount <= limits.keyLimit && orgCount <= limits.orgLimit;
    }
  }

  /** Counters keep their histories while time passes and one of them is incremented. */
  lemma TracksNext(history: map<Name, seq<nat>>, counters: map<Name, Counter>, last: nat, now: nat,
                   name: Name, ts: seq<nat>, c: Counter)
    requires counters.Keys == history.Keys && last <= now && Tracks(c, ts, Window(name), now)
    requires forall n :: n in history ==> Tracks(counters[n], history[n], Window(n), last)
    ensures forall n :: n in history[name := ts] ==> Tracks(counters[name := c][n], history[name := ts][n], Window(n), now)
  {
    forall n | n in history
      ensures Tracks(counters[n], history[n], Window(n), now)
    {
      assert Tracks(counters[n], history[n], Window(n), last);
    }
    hide Tracks, Window;
  }

  /** One increment of a counter, by its whole history. */
  lemma CounterFacts(ts: seq<nat>, c: Counter, last: nat, now: nat, window: nat)
    requires window > 0 && last <= now && ((ts == [] && c == ABSENT) || Tracks(c, ts, window, last))
    ensures c.expires.Some? && (c.count == 0 ==> c.expires.value <= now)
    ensures Tracks(Hit(c, now, window, true), ts + [now], window, now)
    ensures Hit(c, now, window, true).count == Place(ts + [now], window)
  {
    OrderedPrefix(ts, now);
    HitsSnoc(ABSENT, ts, now, window);
    assert Hits(ABSENT, [], window) == ABSENT && IsOrdered([]);
    hide Hits, IsOrdered, Start;
    if ts != [] {
      CounterIsPlace(ts, window);
    }
    CounterIsPlace(ts + [now], window);
  }
}
