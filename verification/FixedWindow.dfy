/**
 The fixed-window limiter of API keys and organisations: one counter each, incremented by every
 request and dropped by Redis one window after its first increment. The clock does not run
 backwards. Times are in milliseconds.
 */
module FixedWindow {
  import opened Options
  import opened FiniteSets
  import opened Times

  /** The request that opened the window of request `i`. */
  function Start(ts: seq<nat>, i: nat, window: nat): (s: nat)
    requires i < |ts|
    ensures s <= i
    decreases i
  {
    if i == 0 then 0
    else
      var s := Start(ts, i - 1, window);
      if ts[i] >= ts[s] + window then i else s
  }

  /** A request passes if it is among the first `limit` of its window. */
  predicate Allows(ts: seq<nat>, i: nat, window: nat, limit: nat)
    requires i < |ts|
  {
    i - Start(ts, i, window) < limit
  }

  /** Later requests do not change what an earlier one saw. */
  lemma {:induction false} StartOfPrefix(ts: seq<nat>, us: seq<nat>, i: nat, window: nat)
    requires i < |ts|
    ensures Start(ts + us, i, window) == Start(ts, i, window)
    decreases i
  {
    if i > 0 {
      StartOfPrefix(ts, us, i - 1, window);
    }
  }

  lemma {:induction false} StartFacts(ts: seq<nat>, i: nat, window: nat)
    requires i < |ts| && IsOrdered(ts) && window > 0
    ensures var s := Start(ts, i, window);
            Start(ts, s, window) == s && ts[s] <= ts[i] < ts[s] + window
    decreases i
  {
    if i > 0 {
      StartFacts(ts, i - 1, window);
    }
  }

  /** Windows follow one another: a later window opens after all of an earlier one, and a window length later. */
  lemma {:induction false} WindowsFollow(ts: seq<nat>, i: nat, j: nat, window: nat)
    requires i <= j < |ts|
    ensures var s, t := Start(ts, i, window), Start(ts, j, window);
            s == t || (t > i && ts[t] >= ts[s] + window)
    decreases j
  {
    if i < j {
      WindowsFollow(ts, i, j - 1, window);
    }
  }

  // ---- what the limiter promises ----

  /** The requests allowed in the window that request `s` opened. */
  function AllowedIn(ts: seq<nat>, s: nat, window: nat, limit: nat): set<int> {
    set i | 0 <= i < |ts| && Start(ts, i, window) == s && Allows(ts, i, window, limit)
  }

  /** Every window lets exactly its first `limit` requests pass, and so never more than that. */
  lemma EachWindowAllowsItsLimit(ts: seq<nat>, s: nat, window: nat, limit: nat)
    requires s < |ts|
    ensures forall i :: 0 <= i < |ts| && Start(ts, i, window) == s ==> (Allows(ts, i, window, limit) <==> i < s + limit)
    ensures |AllowedIn(ts, s, window, limit)| <= limit
  {
    hide Start;
    RangeSize(AllowedIn(ts, s, window, limit), s, s + limit);
  }

  /** The requests allowed at a time from `a` up to but not including `a + window`. */
  function AllowedFrom(ts: seq<nat>, a: nat, window: nat, limit: nat): set<int> {
    set i | 0 <= i < |ts| && a <= ts[i] < a + window && Allows(ts, i, window, limit)
  }

  predicate SameWindow(ts: seq<nat>, i: int, j: int, window: nat) {
    0 <= i < |ts| && 0 <= j < |ts| && Start(ts, i, window) == Start(ts, j, window)
  }

  /**
   An interval of one window length meets at most two windows, and only one of them with its first
   request: it sees less than twice the limit.
   */
  lemma AnyIntervalAllowsFew(ts: seq<nat>, a: nat, window: nat, limit: nat)
    requires IsOrdered(ts) && window > 0
    ensures |AllowedFrom(ts, a, window, limit)| <= if limit == 0 then 0 else 2 * limit - 1
  {
    hide Start, IsOrdered, AllowedFrom, SameWindow;
    var allowed := AllowedFrom(ts, a, window, limit);
    if |allowed| > 0 {
      var first := HasMin(allowed);
      var early := set i | i in allowed && SameWindow(ts, first, i, window);
      var late := allowed - early;
      assert allowed == early + late;
      AllowedFacts(ts, a, window, limit, first);
      EarlyWindow(ts, a, first, early, window, limit);
      if |late| > 0 {
        var next := HasMin(late);
        LateWindow(ts, a, first, next, late, window, limit);
      }
    }
  }

  lemma AllowedFacts(ts: seq<nat>, a: nat, window: nat, limit: nat, i: int)
    requires i in AllowedFrom(ts, a, window, limit)
    ensures 0 <= i < |ts| && a <= ts[i] < a + window && i < Start(ts, i, window) + limit
  {
  }

  lemma EarlyWindow(ts: seq<nat>, a: nat, first: nat, early: set<int>, window: nat, limit: nat)
    requires first < |ts| && early <= AllowedFrom(ts, a, window, limit) && limit > 0
    requires forall i :: i in early ==> SameWindow(ts, first, i, window)
    ensures |early| <= limit
    ensures ts[Start(ts, first, window)] < a ==> |early| < limit
  {
    hide Start, AllowedFrom;
    var s := Start(ts, first, window);
    var lo := if ts[s] >= a then s else s + 1;
    forall i | i in early
      ensures lo <= i < s + limit
    {
      assert SameWindow(ts, first, i, window);
      AllowedFacts(ts, a, window, limit, i);
    }
    RangeSize(early, lo, s + limit);
  }

  lemma LateWindow(ts: seq<nat>, a: nat, first: nat, next: nat, late: set<int>, window: nat, limit: nat)
    requires IsOrdered(ts) && window > 0 && limit > 0 && first <= next && next in late
    requires first in AllowedFrom(ts, a, window, limit) && late <= AllowedFrom(ts, a, window, limit)
    requires forall i :: i in late ==> next <= i && !SameWindow(ts, first, i, window)
    ensures first < |ts| && ts[Start(ts, first, window)] < a && |late| <= limit
  {
    hide Start, AllowedFrom, IsOrdered;
    AllowedFacts(ts, a, window, limit, first);
    AllowedFacts(ts, a, window, limit, next);
    assert !SameWindow(ts, first, next, window);
    var t := Start(ts, next, window);
    WindowsFollow(ts, first, next, window);
    StartFacts(ts, next, window);
    LaterStart(ts, first, t, window);
    forall i | i in late
      ensures t <= i < t + limit
    {
      AllowedFacts(ts, a, window, limit, i);
      WindowsFollow(ts, next, i, window);
      StartFacts(ts, i, window);
    }
    RangeSize(late, t, t + limit);
  }

  lemma LaterStart(ts: seq<nat>, first: nat, t: nat, window: nat)
    requires IsOrdered(ts) && first < t < |ts|
    ensures ts[first] <= ts[t]
  {
  }

  /** One request early in a window, the others just before its end, and as many again when it is over. */
  function Burst(window: nat, limit: nat): (ts: seq<nat>)
    requires window >= 2
    ensures |ts| == 2 * limit
  {
    seq(2 * limit, i => if i == 0 then 0 else if i < limit then window - 1 else window)
  }

  lemma {:induction false} BurstStarts(window: nat, limit: nat, i: nat)
    requires window >= 2 && limit > 0 && i < 2 * limit
    ensures Start(Burst(window, limit), i, window) == if i < limit then 0 else limit
    decreases i
  {
    if i > 0 {
      BurstStarts(window, limit, i - 1);
    }
  }

  /** For every limit the bound is met: some requests have 2 * limit - 1 allowed within one window length. */
  lemma BoundIsMet(window: nat, limit: nat)
    requires window >= 2 && limit > 0
    ensures IsOrdered(Burst(window, limit))
    ensures |AllowedFrom(Burst(window, limit), 1, window, limit)| == 2 * limit - 1
  {
    var ts := Burst(window, limit);
    hide Start;
    forall i | 0 <= i < 2 * limit
      ensures i in AllowedFrom(ts, 1, window, limit) <==> i in Interval(1, 2 * limit)
    {
      BurstStarts(window, limit, i);
      IntervalFacts(1, 2 * limit);
    }
    IntervalFacts(1, 2 * limit);
    hide Interval, Allows;
    assert AllowedFrom(ts, 1, window, limit) == Interval(1, 2 * limit);
  }

  // ---- counters that lose their expiry ----

  /** A counter in Redis: its value, and when the key is dropped, if it is at all. */
  datatype Counter = Counter(count: nat, expires: Option<nat>)

  const ABSENT := Counter(0, Some(0))

  /** INCR, and EXPIRE after the first increment, unless that is lost. */
  function Hit(c: Counter, now: nat, window: nat, landed: bool): Counter {
    if c.expires.Some? && c.expires.value <= now
    then Counter(1, if landed then Some(now + window) else None)
    else c.(count := c.count + 1)
  }

  function Hits(c: Counter, ts: seq<nat>, window: nat): Counter
    decreases |ts|
  {
    if ts == [] then c else Hit(Hits(c, ts[..|ts| - 1], window), ts[|ts| - 1], window, true)
  }

  lemma StartSnoc(front: seq<nat>, t: nat, window: nat)
    ensures Start(front + [t], |front|, window) ==
              if front == [] then 0
              else if t >= front[Start(front, |front| - 1, window)] + window then |front|
              else Start(front, |front| - 1, window)
  {
    if front != [] {
      StartOfPrefix(front, [t], |front| - 1, window);
    }
  }

  lemma HitsSnoc(c: Counter, front: seq<nat>, t: nat, window: nat)
    ensures Hits(c, front + [t], window) == Hit(Hits(c, front, window), t, window, true)
  {
    hide Hit;
    assert (front + [t])[..|front|] == front;
  }

  /** How many requests of its window the last request makes. */
  function Place(ts: seq<nat>, window: nat): int
    requires ts != []
  {
    |ts| - Start(ts, |ts| - 1, window)
  }

  /** The counter after these requests: the last one's place in its window, dropped when that ends. */
  predicate IsCounter(c: Counter, ts: seq<nat>, window: nat)
    requires ts != []
  {
    c.count == Place(ts, window) && c.expires == Some(ts[Start(ts, |ts| - 1, window)] + window)
  }

  lemma HitMovesOn(c: Counter, front: seq<nat>, t: nat, window: nat)
    requires window > 0
    requires if front == [] then c == ABSENT else IsCounter(c, front, window)
    ensures IsCounter(Hit(c, t, window, true), front + [t], window)
  {
    hide Start;
    StartSnoc(front, t, window);
  }

  /** With no expiry lost, the counter tells a request's place in its window. */
  lemma {:induction false} CounterIsPlace(ts: seq<nat>, window: nat)
    requires window > 0 && ts != []
    ensures IsCounter(Hits(ABSENT, ts, window), ts, window)
    decreases |ts|
  {
    assert Hits(ABSENT, [], window) == ABSENT;
    hide Start, Hits, Hit, IsCounter;
    var front, t := ts[..|ts| - 1], ts[|ts| - 1];
    assert ts == front + [t];
    HitsSnoc(ABSENT, front, t, window);
    if front != [] {
      CounterIsPlace(front, window);
    }
    HitMovesOn(Hits(ABSENT, front, window), front, t, window);
  }

  /** A counter whose first expiry was lost and that has reached the limit turns everyone away for good. */
  lemma {:induction false} LostExpiryLocksOut(c: Counter, ts: seq<nat>, window: nat, limit: nat)
    requires c.expires == None && c.count >= limit && ts != []
    ensures Hits(c, ts, window).count > limit && Hits(c, ts, window).expires == None
    decreases |ts|
  {
    var front := ts[..|ts| - 1];
    if front != [] {
      LostExpiryLocksOut(c, front, window, limit);
    } else {
      assert Hits(c, front, window) == c;
    }
  }
}
