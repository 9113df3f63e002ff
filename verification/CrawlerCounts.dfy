/**
 What the crawler counts, and what an abort does. The failure count decides whether an audit is
 complete or partial.
 */
module CrawlerCounts {
  import opened Options
  import opened CrawlerModel
  import opened CrawlerSafety
  import opened CrawlerBfs

  // ---- failures ----

  /** How many fetches and callbacks of the run have failed. */
  function Failing(es: seq<Event>): nat
    decreases |es|
  {
    if es == [] then 0 else (if es[0].FetchFailed? || es[0].CallbackThrew? then 1 else 0) + Failing(es[1..])
  }

  lemma {:induction false} DispatchLoopKeepsFailures(cfg: Config, s: State)
    ensures var t := DispatchLoop(cfg, s); t.failures == s.failures && t.aborted == s.aborted && t.log == s.log
    decreases |s.pending|
  {
    hide Active;
    if CanDispatch(cfg, s) {
      DispatchLoopKeepsFailures(cfg, DispatchOne(cfg, s));
    }
  }

  lemma DispatchKeepsFailures(cfg: Config, s: State)
    ensures var t := Dispatch(cfg, s); t.failures == s.failures && t.aborted == s.aborted && t.log == s.log
  {
    hide DispatchLoop, Active;
    DispatchLoopKeepsFailures(cfg, s);
  }

  lemma ApplyCounts(cfg: Config, s: State, e: Event)
    ensures Apply(cfg, s, e).failures == s.failures + if e.FetchFailed? || e.CallbackThrew? then 1 else 0
  {
    hide Dispatch, PushLinks;
    match e
    case Settled(x) => DispatchKeepsFailures(cfg, s.(closing := s.closing - {x}));
    case CallbackOk(x, links) => DiscoverExtends(cfg, s, x, links);
    case _ =>
  }

  lemma {:induction false} ExecCounts(cfg: Config, s: State, es: seq<Event>)
    ensures Exec(cfg, s, es).failures == s.failures + Failing(es)
    decreases |es|
  {
    hide Apply;
    if es != [] {
      ApplyCounts(cfg, s, es[0]);
      ExecCounts(cfg, Apply(cfg, s, es[0]), es[1..]);
    }
  }

  /** In every interleaving, aborted or not, the failure count is the number of failed fetches and callbacks. */
  lemma FailuresAreCounted(cfg: Config, start: Url, aborted: bool, es: seq<Event>)
    ensures Exec(cfg, Start(cfg, start, aborted), es).failures == Failing(es)
  {
    hide DispatchLoop, Exec;
    ExecCounts(cfg, Start(cfg, start, aborted), es);
    DispatchKeepsFailures(cfg, Push(Fresh(aborted), Item(start, 0, None)));
  }

  /** The queued items, by place, that were taken off the queue to be fetched and were not answered. */
  function Lost(cfg: Config, site: Site, log: seq<Item>, n: nat, fetching: set<Item>): set<int> {
    set i | 0 <= i < n && i < |log| && cfg.allowed(log[i].url) && !site.ok(log[i].url) && log[i] !in fetching
  }

  ghost predicate LostInv(cfg: Config, site: Site, s: State) {
    s.failures == |Lost(cfg, site, s.log, Dispatched(s), s.fetching)|
  }

  /** An item that is taken off the queue is being fetched, or not allowed. */
  lemma LostNext(cfg: Config, site: Site, log: seq<Item>, n: nat, fetching: set<Item>, more: set<Item>)
    requires n < |log| && forall i :: 0 <= i < n ==> log[i] != log[n]
    requires more == if cfg.allowed(log[n].url) then fetching + {log[n]} else fetching
    ensures Lost(cfg, site, log, n + 1, more) == Lost(cfg, site, log, n, fetching)
  {
  }

  lemma BeginLoses(cfg: Config, start: Url, site: Site, s: State)
    requires CoreInv(cfg, start, s) && !s.aborted && CanDispatch(cfg, s) && LostInv(cfg, site, s)
    ensures LostInv(cfg, site, DispatchOne(cfg, s)) && !DispatchOne(cfg, s).aborted
  {
    hide CoreInv, QueueInv, DispatchOne, Begin, Active, CanDispatch, Lost, Dispatched;
    CanDispatchMeans(cfg, s);
    FrontFits(cfg, start, s);
    BeginShape(cfg, s);
    FrontAlone(cfg, start, s);
    FrontPlace(s);
    LostNext(cfg, site, s.log, Dispatched(s), s.fetching, DispatchOne(cfg, s).fetching);
  }

  lemma FrontPlace(s: State)
    requires 0 < |s.pending| <= |s.log|
    ensures Dispatched(s) < |s.log|
  {
  }

  lemma CanDispatchMeans(cfg: Config, s: State)
    requires CanDispatch(cfg, s)
    ensures |s.pending| > 0
  {
  }

  /** The front item stands nowhere before in the queue's history. */
  lemma FrontAlone(cfg: Config, start: Url, s: State)
    requires CoreInv(cfg, start, s) && |s.pending| > 0
    ensures forall i :: 0 <= i < Dispatched(s) ==> s.log[i] != s.pending[0]
  {
    hide TakenInv, PhaseInv, DepthInv, BudgetInv, DoneInv;
    assert s.pending[0] == s.log[Dispatched(s)];
  }

  lemma {:induction false} DispatchLoopLoses(cfg: Config, start: Url, site: Site, s: State)
    requires CoreInv(cfg, start, s) && !s.isDone && !s.aborted && LostInv(cfg, site, s)
    ensures LostInv(cfg, site, DispatchLoop(cfg, s))
    decreases |s.pending|
  {
    hide CoreInv, LostInv, Active;
    if CanDispatch(cfg, s) {
      BeginKeeps(cfg, start, s);
      BeginLoses(cfg, start, site, s);
      DispatchLoopLoses(cfg, start, site, DispatchOne(cfg, s));
    }
  }

  lemma DispatchLoses(cfg: Config, start: Url, site: Site, s: State)
    requires CoreInv(cfg, start, s) && !s.aborted && LostInv(cfg, site, s)
    ensures LostInv(cfg, site, Dispatch(cfg, s))
  {
    hide CoreInv, DispatchLoop, Active, Lost;
    if !s.isDone {
      DispatchLoopLoses(cfg, start, site, s);
    }
  }

  /** A worker's item has one place in the queue's history, before those still waiting. */
  lemma HasPlace(cfg: Config, start: Url, s: State, x: Item) returns (k: nat)
    requires Inv(cfg, start, s) && x in s.fetching
    ensures k < Dispatched(s) <= |s.log| && s.log[k] == x && forall i :: 0 <= i < |s.log| && s.log[i] == x ==> i == k
  {
    hide PhaseInv, DepthInv, BudgetInv, DoneInv;
    assert Taken(s.log, Dispatched(s), x);
    k :| 0 <= k < Dispatched(s) && k < |s.log| && s.log[k] == x;
  }

  lemma FetchLoses(cfg: Config, start: Url, site: Site, s: State, x: Item, t: State)
    requires Inv(cfg, start, s) && LostInv(cfg, site, s) && x in s.fetching && cfg.allowed(x.url)
    requires t.log == s.log && t.pending == s.pending && t.fetching == s.fetching - {x}
    requires t.failures == s.failures + if site.ok(x.url) then 0 else 1
    ensures LostInv(cfg, site, t)
  {
    hide Inv;
    var k := HasPlace(cfg, start, s, x);
    var before := Lost(cfg, site, s.log, Dispatched(s), s.fetching);
    var after := Lost(cfg, site, t.log, Dispatched(t), t.fetching);
    assert Dispatched(t) == Dispatched(s);
    forall i
      ensures i in after <==> i in before || (i == k && !site.ok(x.url))
    {
    }
    assert after == if site.ok(x.url) then before else before + {k};
    assert k !in before;
  }

  lemma DiscoverLoses(cfg: Config, site: Site, s: State, x: Item, links: seq<Url>)
    requires LostInv(cfg, site, s) && x in s.stored && x !in s.fetching && |s.pending| <= |s.log|
    ensures LostInv(cfg, site, Close(Discover(cfg, s, x, links), x, 0))
  {
    hide Discover;
    DiscoverExtends(cfg, s, x, links);
    var t := Close(Discover(cfg, s, x, links), x, 0);
    assert t.fetching == s.fetching;
    assert Dispatched(t) == Dispatched(s);
    assert Lost(cfg, site, t.log, Dispatched(t), t.fetching) == Lost(cfg, site, s.log, Dispatched(s), s.fetching);
  }

  lemma FetchingIsAllowed(cfg: Config, site: Site, s: State, x: Item)
    requires BfsInv(cfg, site, false, s) && x in s.fetching
    ensures cfg.allowed(x.url)
  {
  }

  lemma ApplyLoses(cfg: Config, start: Url, site: Site, s: State, e: Event)
    requires GoodConfig(cfg) && Inv(cfg, start, s) && BfsInv(cfg, site, false, s) && LostInv(cfg, site, s)
    requires Enabled(s, e) && Follows(site, e)
    ensures LostInv(cfg, site, Apply(cfg, s, e))
  {
    match e
    case Fetched(x) =>
      hide Inv, BfsInv, LostInv;
      FetchingIsAllowed(cfg, site, s, x);
      FetchLoses(cfg, start, site, s, x, Apply(cfg, s, e));
    case FetchFailed(x) =>
      hide Inv, BfsInv, LostInv;
      FetchingIsAllowed(cfg, site, s, x);
      FetchLoses(cfg, start, site, s, x, Apply(cfg, s, e));
    case CallbackOk(x, links) =>
      hide Inv, BfsInv, LostInv, Close, Discover;
      StartIsRead(cfg, start, s, x);
      QueueFits(cfg, start, s);
      DiscoverLoses(cfg, site, s, x, links);
    case Settled(x) =>
      hide BfsInv, Apply;
      SettleLoses(cfg, start, site, s, x);
  }

  lemma SettleLoses(cfg: Config, start: Url, site: Site, s: State, x: Item)
    requires CoreInv(cfg, start, s) && BfsInv(cfg, site, false, s) && LostInv(cfg, site, s) && x in s.closing
    ensures LostInv(cfg, site, Apply(cfg, s, Settled(x)))
  {
    hide CoreInv, BfsInv, Dispatch, Lost;
    LeaveKeeps(cfg, start, s, x);
    NotAborted(cfg, site, s);
    DispatchLoses(cfg, start, site, s.(closing := s.closing - {x}));
  }

  lemma NotAborted(cfg: Config, site: Site, s: State)
    requires BfsInv(cfg, site, false, s)
    ensures !s.aborted
  {
  }

  lemma {:induction false} ExecLoses(cfg: Config, start: Url, site: Site, s: State, es: seq<Event>)
    requires GoodConfig(cfg) && Inv(cfg, start, s) && BfsInv(cfg, site, false, s) && LostInv(cfg, site, s)
    requires Possible(cfg, s, es) && forall e :: e in es ==> Follows(site, e)
    ensures LostInv(cfg, site, Exec(cfg, s, es))
    decreases |es|
  {
    hide Inv, BfsInv, LostInv, Apply, Enabled, Follows;
    if es != [] {
      ApplyKeeps(cfg, start, s, es[0]);
      ApplyBfs(cfg, start, site, false, s, es[0]);
      ApplyLoses(cfg, start, site, s, es[0]);
      ExecLoses(cfg, start, site, Apply(cfg, s, es[0]), es[1..]);
    }
  }

  /**
   While a crawl follows a site, in whatever interleaving, its failure count is the number of allowed
   addresses taken off the queue whose fetch has come back and is not answered by the site.
   */
  lemma FailuresAreBrokenPages(cfg: Config, start: Url, site: Site, es: seq<Event>)
    requires GoodConfig(cfg)
    requires Possible(cfg, Start(cfg, start, false), es) && forall e :: e in es ==> Follows(site, e)
    ensures var s := Exec(cfg, Start(cfg, start, false), es);
            s.failures == |Lost(cfg, site, s.log, Dispatched(s), s.fetching)|
  {
    hide Inv, BfsInv, Exec, Possible, Start, Follows, Lost;
    StartKeeps(cfg, start, false);
    StartBfs(cfg, start, site, false);
    StartLoses(cfg, start, site);
    ExecLoses(cfg, start, site, Start(cfg, start, false), es);
  }

  lemma StartLoses(cfg: Config, start: Url, site: Site)
    requires GoodConfig(cfg)
    ensures LostInv(cfg, site, Start(cfg, start, false))
  {
    var s := Push(Fresh(false), Item(start, 0, None));
    assert Lost(cfg, site, s.log, Dispatched(s), s.fetching) == {};
    QueuedStartIsCore(cfg, start, false);
    hide Dispatch, CoreInv, Lost;
    DispatchLoses(cfg, start, site, s);
  }

  // ---- what a page adds to the queue ----

  /**
   A page that is read adds nothing at the depth limit or with a spent budget; else every link it
   shows is queued unless the cap of three times the budget is met, and nothing but its links is.
   */
  lemma LinksAreQueued(cfg: Config, s: State, x: Item, links: seq<Url>)
    ensures var t := Apply(cfg, s, CallbackOk(x, links));
            && s.enqueued <= t.enqueued && t.pages == s.pages && s.pending <= t.pending
            && (forall l :: l in t.enqueued ==> l in s.enqueued || l in links)
            && (x.depth >= cfg.maxDepth || |s.pages| >= cfg.maxPages ==> t.enqueued == s.enqueued && t.pending == s.pending)
            && (x.depth < cfg.maxDepth && |s.pages| < cfg.maxPages ==>
                  forall l :: l in links ==> l in t.enqueued || |t.enqueued| >= 3 * cfg.maxPages)
  {
    hide PushLinks;
    PushLinksFinds(cfg, s, links, x);
    PushLinksQueue(cfg, s, links, x);
  }

  // ---- aborting ----

  /** Once aborted, no worker starts, and the next that settles resolves the crawl. */
  lemma AbortStops(cfg: Config, s: State, e: Event)
    requires s.aborted && Enabled(s, e)
    ensures var t := Apply(cfg, s, e);
            && t.aborted && t.fetching <= s.fetching && s.pending <= t.pending
            && (s.isDone || e.Settled? ==> t.isDone)
  {
    if e.CallbackOk? {
      PushLinksQueue(cfg, s, e.links, e.item);
      hide PushLinks;
    }
  }

  lemma {:induction false} PushLinksQueue(cfg: Config, s: State, links: seq<Url>, from: Item)
    ensures var t := PushLinks(cfg, s, links, from);
            s.pending <= t.pending && t == s.(enqueued := t.enqueued, pending := t.pending, log := t.log)
    decreases |links|
  {
    if links != [] {
      PushLinksQueue(cfg, PushLink(cfg, s, links[0], from), links[1..], from);
    }
  }

  /** So from an abort on only fetches in flight are answered, and nothing is taken off the queue. */
  lemma {:induction false} AbortedCrawlWindsDown(cfg: Config, s: State, es: seq<Event>)
    requires s.aborted && Possible(cfg, s, es)
    ensures var t := Exec(cfg, s, es);
            && t.aborted && t.fetching <= s.fetching && s.pending <= t.pending
            && ((exists i :: 0 <= i < |es| && es[i].Settled?) ==> t.isDone)
            && (s.isDone ==> t.isDone)
    decreases |es|
  {
    hide Apply, Enabled;
    if es != [] {
      AbortStops(cfg, s, es[0]);
      AbortedCrawlWindsDown(cfg, Apply(cfg, s, es[0]), es[1..]);
      assert forall i :: 0 < i < |es| ==> es[i] == es[1..][i - 1];
    }
  }
}
