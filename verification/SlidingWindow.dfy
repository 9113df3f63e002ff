/**
 The sliding-window limiter of one client: a sorted set of request times in Redis, with one
 transaction per request. Every request is logged, also one that is then turned away. The clock
 does not run backwards. Times are in milliseconds.
 */
module SlidingWindow {
  import opened FiniteSets
  import opened Times

  /** The times later than one window before `now`, in order. */
  function Recent(ts: seq<nat>, now: nat, window: nat): seq<nat>
    decreases |ts|
  {
    if ts == [] then []
    else
      var front, t := Recent(ts[..|ts| - 1], now, window), ts[|ts| - 1];
      if t > now - window then front + [t] else front
  }

  /** The requests up to and including `i` that lie within one window before it. */
  function Window(ts: seq<nat>, i: nat, window: nat): set<int>
    requires i < |ts|
  {
    set j | 0 <= j <= i && ts[j] > ts[i] - window
  }

  /** The simple definition: a request passes if it is among the first `limit` of its own window. */
  predicate Admits(ts: seq<nat>, i: nat, window: nat, limit: nat)
    requires i < |ts|
  {
    |Window(ts, i, window)| <= limit
  }

  lemma {:induction false} RecentCounts(ts: seq<nat>, now: nat, window: nat)
    ensures |Recent(ts, now, window)| == |set j | 0 <= j < |ts| && ts[j] > now - window|
    decreases |ts|
  {
    var js := set j | 0 <= j < |ts| && ts[j] > now - window;
    if ts == [] {
      assert js == {};
    } else {
      var front := ts[..|ts| - 1];
      RecentCounts(front, now, window);
      var ks := set j | 0 <= j < |front| && front[j] > now - window;
      assert js == ks + if ts[|ts| - 1] > now - window then {|ts| - 1} else {};
    }
  }

  /** Pruning again, later, gives what pruning once would have given. */
  lemma {:induction false} RecentTwice(ts: seq<nat>, earlier: nat, now: nat, window: nat)
    requires earlier <= now
    ensures Recent(Recent(ts, earlier, window), now, window) == Recent(ts, now, window)
    decreases |ts|
  {
    if ts != [] {
      var front, t := ts[..|ts| - 1], ts[|ts| - 1];
      RecentTwice(front, earlier, now, window);
      var r := Recent(front, earlier, window);
      assert (r + [t])[..|r|] == r;
    }
  }

  lemma {:induction false} NoneRecent(ts: seq<nat>, now: nat, window: nat)
    requires forall i :: 0 <= i < |ts| ==> ts[i] <= now - window
    ensures Recent(ts, now, window) == []
    decreases |ts|
  {
    if ts != [] {
      NoneRecent(ts[..|ts| - 1], now, window);
    }
  }

  lemma RecentSnoc(front: seq<nat>, t: nat, window: nat)
    requires window > 0
    ensures Recent(front + [t], t, window) == Recent(front, t, window) + [t]
  {
    assert (front + [t])[..|front|] == front;
  }

  // ---- what the simple definition promises ----

  /** No interval of one window length sees more than `limit` admitted requests. */
  lemma AnyWindowAdmitsFew(ts: seq<nat>, x: int, window: nat, limit: nat)
    requires IsOrdered(ts)
    ensures |set i | 0 <= i < |ts| && x - window < ts[i] <= x && Admits(ts, i, window, limit)| <= limit
  {
    hide Admits;
    var admitted := set i | 0 <= i < |ts| && x - window < ts[i] <= x && Admits(ts, i, window, limit);
    if |admitted| > 0 {
      var k := HasMax(admitted);
      SubsetSize(admitted, Window(ts, k, window));
      AdmitsMeans(ts, k, window, limit);
    }
  }

  lemma AdmitsMeans(ts: seq<nat>, i: nat, window: nat, limit: nat)
    requires i < |ts|
    ensures Admits(ts, i, window, limit) <==> |Window(ts, i, window)| <= limit
  {
  }

  /** A request is admitted exactly if fewer than `limit` others, admitted or not, fell into its window. */
  lemma AdmittedIffQuiet(ts: seq<nat>, i: nat, window: nat, limit: nat)
    requires i < |ts| && window > 0
    ensures Admits(ts, i, window, limit) <==> |set j | 0 <= j < i && ts[j] > ts[i] - window| < limit
  {
    var others := set j | 0 <= j < i && ts[j] > ts[i] - window;
    assert Window(ts, i, window) == others + {i};
  }

  /** A client that was silent for a full window is admitted next. */
  lemma SilentClientsAreAdmitted(ts: seq<nat>, i: nat, window: nat, limit: nat)
    requires i < |ts| && window > 0 && limit > 0
    requires forall j :: 0 <= j < i ==> ts[j] <= ts[i] - window
    ensures Admits(ts, i, window, limit)
  {
    assert Window(ts, i, window) == {i};
  }

  /** A client that never lets up is never admitted again: the requests turned away count as well. */
  lemma KnockingKeepsOut(ts: seq<nat>, i: nat, window: nat, limit: nat)
    requires IsOrdered(ts) && limit <= i < |ts| && window > 0
    requires ts[i - limit] > ts[i] - window
    ensures !Admits(ts, i, window, limit)
  {
    IntervalFacts(i - limit, i + 1);
    SubsetSize(Interval(i - limit, i + 1), Window(ts, i, window));
  }

  // ---- the limiter ----

  /** One request's transaction, on the history before it and what is stored of that. */
  lemma RequestLogs(before: seq<nat>, log: seq<nat>, expires: nat, now: nat, window: nat)
    requires window > 0 && IsOrdered(before) && (before == [] ==> log == [])
    requires before != [] ==>
               var last := before[|before| - 1];
               last <= now && log == Recent(before, last, window) && expires == last + window
    ensures IsOrdered(before + [now])
    ensures var live := if now >= expires then [] else log;
            Recent(live, now, window) + [now] == Recent(before + [now], now, window)
  {
    hide Recent;
    OrderedPrefix(before, now);
    RecentSnoc(before, now, window);
    NoneRecent([], now, window);
    if before != [] {
      RecentTwice(before, before[|before| - 1], now, window);
      if now >= expires {
        NoneRecent(before, now, window);
      }
    }
  }

  lemma AdmitsByLog(ts: seq<nat>, window: nat, limit: nat)
    requires ts != []
    ensures Admits(ts, |ts| - 1, window, limit) <==> |Recent(ts, ts[|ts| - 1], window)| <= limit
  {
    hide Recent;
    var now := ts[|ts| - 1];
    RecentCounts(ts, now, window);
    assert Window(ts, |ts| - 1, window) == set j | 0 <= j < |ts| && ts[j] > now - window;
  }

  /** The sorted set of one client, and the time at which Redis drops the key. */
  class Limiter {
    const window: nat
    const limit: nat
    var log: seq<nat>
    var expires: nat
    ghost var history: seq<nat>

    /** What is stored is the last window of the history, and lives one window beyond its end. */
    ghost predicate Valid()
      reads this
    {
      && window > 0 && IsOrdered(history)
      && (history == [] ==> log == [])
      && (history != [] ==>
            var last := history[|history| - 1];
            log == Recent(history, last, window) && expires == last + window)
    }

    constructor (window: nat, limit: nat)
      requires window > 0
      ensures Valid() && history == [] && this.window == window && this.limit == limit
    {
      this.window, this.limit := window, limit;
      log, expires, history := [], 0, [];
    }

    /**
     One transaction: prune, add, count, and set the expiry. The stored set is then exactly the
     requests of the last window, also if the key had expired, and the answer is the simple one.
     */
    method Request(now: nat) returns (admitted: bool, remaining: nat)
      requires Valid() && (history != [] ==> history[|history| - 1] <= now)
      modifies this
      ensures Valid() && history == old(history) + [now]
      ensures log == Recent(history, now, window)
      ensures admitted <==> Admits(history, |history| - 1, window, limit)
      ensures remaining == if |log| <= limit then limit - |log| else 0
    {
      hide Recent, IsOrdered, Admits;
      RequestLogs(history, log, expires, now, window);
      AdmitsByLog(history + [now], window, limit);
      if now >= expires {
        log := [];
      }
      log := Recent(log, now, window);
      log := log + [now];
      history := history + [now];
      admitted := |log| <= limit;
      remaining := if |log| <= limit then limit - |log| else 0;
      expires := now + window;
    }
  }
}
