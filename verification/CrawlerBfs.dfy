/**
 When the crawl is a breadth-first search: with one worker, or with a depth limit of at
 most two and any number of workers, it stores exactly the pages within reach, each at its
 shortest distance from the start. Beyond that, and with a budget of six pages or more, it need not: a slow worker on a short way
 lets a longer way claim a page first.
 */
module CrawlerBfs {
  import opened Options
  import opened CrawlerModel
  import opened CrawlerSafety

  /** The site as the crawler meets it: which fetches succeed and what links they show. */
  datatype Site = Site(ok: Url -> bool, links: Url -> seq<Url>)

  predicate Good(cfg: Config, site: Site, u: Url) {
    cfg.allowed(u) && site.ok(u)
  }

  /** The event is the site's own answer; callbacks do not throw and nobody aborts. */
  predicate Follows(site: Site, e: Event) {
    match e
    case Fetched(x) => site.ok(x.url)
    case FetchFailed(x) => !site.ok(x.url)
    case CallbackOk(x, links) => links == site.links(x.url)
    case CallbackThrew(_) => false
    case Settled(_) => true
    case Abort => false
  }

  // ---- the reference: walks along links of good pages ----

  ghost predicate Walk(cfg: Config, site: Site, w: seq<Url>) {
    |w| > 0 && forall i :: 0 <= i < |w| - 1 ==> Good(cfg, site, w[i]) && w[i + 1] in site.links(w[i])
  }

  /** `u` can be reached from `start` over `hops` links. */
  ghost predicate Reaches(cfg: Config, site: Site, start: Url, u: Url, hops: nat) {
    exists w :: Walk(cfg, site, w) && w[0] == start && w[|w| - 1] == u && |w| == hops + 1
  }

  // ---- the invariants ----

  ghost predicate QueuedBy(log: seq<Item>, u: Url, depth: int) {
    exists i :: 0 <= i < |log| && log[i].url == u && log[i].depth <= depth
  }

  /** How deep the links of `x` can have been queued; `exact` stands for the one-worker crawl. */
  function Bound(cfg: Config, exact: bool, x: Item): nat {
    if exact || x.depth == 0 then x.depth + 1 else cfg.maxDepth
  }

  ghost predicate LinkedBy(site: Site, x: Item) {
    x.parent.Some? ==> x.url in site.links(x.parent.value)
  }

  ghost predicate Truthful(cfg: Config, site: Site, log: seq<Item>, pages: map<Url, Page>) {
    && (forall u :: u in pages ==> Good(cfg, site, u))
    && (forall i {:trigger LinkedBy(site, log[i])} :: 0 <= i < |log| ==> LinkedBy(site, log[i]))
  }

  /** Neither the page budget nor the frontier cap has been reached. */
  predicate Uncapped(cfg: Config, pages: map<Url, Page>, enqueued: set<Url>) {
    |pages| < cfg.maxPages && |enqueued| < 3 * cfg.maxPages
  }

  function Capped(cfg: Config, s: State): bool {
    !Uncapped(cfg, s.pages, s.enqueued)
  }

  /** A finished item is stored if it is good, and its links are queued if it was not too deep. */
  ghost predicate Explored(cfg: Config, site: Site, exact: bool, log: seq<Item>, pages: map<Url, Page>, capped: bool,
                           x: Item) {
    && (Good(cfg, site, x.url) ==> x.url in pages)
    && (Good(cfg, site, x.url) && x.depth < cfg.maxDepth && !capped ==>
          forall l {:trigger QueuedBy(log, l, Bound(cfg, exact, x))} ::
            l in site.links(x.url) ==> QueuedBy(log, l, Bound(cfg, exact, x)))
  }

  ghost predicate Closed(cfg: Config, site: Site, exact: bool, log: seq<Item>, n: int, busy: set<Item>,
                         pages: map<Url, Page>, capped: bool) {
    forall k {:trigger Explored(cfg, site, exact, log, pages, capped, log[k])} ::
      0 <= k < n && k < |log| && log[k] !in busy ==> Explored(cfg, site, exact, log, pages, capped, log[k])
  }

  /** Nothing is queued before the links of the start page are. */
  ghost predicate StartFirst(log: seq<Item>, n: int, busy: set<Item>) {
    |log| > 1 ==> n > 0 && log[0] !in busy
  }

  /** What holds with any number of workers. */
  ghost predicate SiteInv(cfg: Config, site: Site, exact: bool, s: State) {
    && !s.aborted
    && Truthful(cfg, site, s.log, s.pages)
    && (forall x :: x in s.fetching ==> cfg.allowed(x.url))
    && StartFirst(s.log, Dispatched(s), s.fetching + s.stored)
    && Closed(cfg, site, exact, s.log, Dispatched(s), s.fetching + s.stored, s.pages, Capped(cfg, s))
  }

  ghost predicate Sorted(log: seq<Item>, n: int) {
    && 0 < n <= |log|
    && (forall i, j :: 0 <= i <= j < |log| ==> log[i].depth <= log[j].depth)
    && (forall j :: 0 <= j < |log| ==> log[j].depth <= log[n - 1].depth + 1)
  }

  /** With one worker the queue is ordered by depth and the worker holds the item dispatched last. */
  ghost predicate OrderInv(s: State) {
    && Sorted(s.log, Dispatched(s))
    && forall x :: x in s.fetching + s.stored + s.closing ==> x == s.log[Dispatched(s) - 1]
  }

  /** Between two workers; before the very first dispatch there is no earlier item. */
  ghost predicate IdleOrder(s: State) {
    Active(s) == 0 && ((Dispatched(s) == 0 && |s.log| == 1) || Sorted(s.log, Dispatched(s)))
  }

  ghost predicate BfsInv(cfg: Config, site: Site, exact: bool, s: State) {
    SiteInv(cfg, site, exact, s) && (exact ==> OrderInv(s))
  }

  // ---- preservation ----

  lemma QueuedByGrows(log: seq<Item>, u: Url, depth: int, more: seq<Item>)
    requires QueuedBy(log, u, depth) && log <= more
    ensures QueuedBy(more, u, depth)
  {
    var i :| 0 <= i < |log| && log[i].url == u && log[i].depth <= depth;
    assert more[i] == log[i];
  }

  lemma ExploredGrows(cfg: Config, site: Site, exact: bool, log: seq<Item>, pages: map<Url, Page>, capped: bool, x: Item,
                      more: seq<Item>, morePages: map<Url, Page>, capped': bool)
    requires Explored(cfg, site, exact, log, pages, capped, x)
    requires log <= more && pages.Keys <= morePages.Keys && (capped ==> capped')
    ensures Explored(cfg, site, exact, more, morePages, capped', x)
  {
    if Good(cfg, site, x.url) && x.depth < cfg.maxDepth && !capped' {
      forall l | l in site.links(x.url)
        ensures QueuedBy(more, l, Bound(cfg, exact, x))
      {
        QueuedByGrows(log, l, Bound(cfg, exact, x), more);
      }
    }
  }

  lemma ClosedGrows(cfg: Config, site: Site, exact: bool, log: seq<Item>, n: int, busy: set<Item>, pages: map<Url, Page>,
                    capped: bool, more: seq<Item>, morePages: map<Url, Page>, capped': bool)
    requires Closed(cfg, site, exact, log, n, busy, pages, capped) && n <= |log|
    requires log <= more && pages.Keys <= morePages.Keys && (capped ==> capped')
    ensures Closed(cfg, site, exact, more, n, busy, morePages, capped')
  {
    forall k | 0 <= k < n && k < |more| && more[k] !in busy
      ensures Explored(cfg, site, exact, more, morePages, capped', more[k])
    {
      assert more[k] == log[k];
      assert Explored(cfg, site, exact, log, pages, capped, log[k]);
      ExploredGrows(cfg, site, exact, log, pages, capped, log[k], more, morePages, capped');
    }
  }

  /** Once a worker's item is explored it may leave the busy set. */
  lemma ClosedRelease(cfg: Config, site: Site, exact: bool, log: seq<Item>, n: int, busy: set<Item>,
                      pages: map<Url, Page>, capped: bool, x: Item, idle: set<Item>)
    requires Closed(cfg, site, exact, log, n, busy, pages, capped)
    requires Explored(cfg, site, exact, log, pages, capped, x) && busy <= idle + {x}
    ensures Closed(cfg, site, exact, log, n, idle, pages, capped)
  {
    forall k | 0 <= k < n && k < |log| && log[k] !in idle
      ensures Explored(cfg, site, exact, log, pages, capped, log[k])
    {
      if log[k] in busy {
        assert log[k] == x;
      }
    }
  }

  lemma PageIsNotFront(s: State, u: Url)
    requires QueueInv(s.log, s.pending, s.enqueued) && PageInv(s.log, Dispatched(s), s.pages)
    requires |s.pending| > 0 && u in s.pages
    ensures u != s.pending[0].url
  {
    assert PageTaken(s.log, Dispatched(s), s.pages, u);
    FrontIsNew(s.log, s.pending, s.enqueued, Item(u, s.pages[u].depth, s.pages[u].parent));
  }

  lemma FrontIsUnstored(s: State)
    requires QueueInv(s.log, s.pending, s.enqueued) && |s.pending| > 0
    requires TakenInv(s.log, Dispatched(s), s.fetching, s.stored, s.closing, s.pages)
    ensures s.pending[0].url !in s.pages
  {
    forall u | u in s.pages
      ensures u != s.pending[0].url
    {
      PageIsNotFront(s, u);
    }
  }

  lemma BeginClosed(cfg: Config, site: Site, exact: bool, s: State, t: State)
    requires Closed(cfg, site, exact, s.log, Dispatched(s), s.fetching + s.stored, s.pages, Capped(cfg, s))
    requires 0 < |s.pending| <= |s.log| && s.pending[0] == s.log[Dispatched(s)]
    requires t == s.(pending := s.pending[1..], fetching := t.fetching, closing := t.closing)
    requires s.fetching <= t.fetching && (s.pending[0] in t.fetching || !cfg.allowed(s.pending[0].url))
    ensures Closed(cfg, site, exact, t.log, Dispatched(t), t.fetching + t.stored, t.pages, Capped(cfg, t))
  {
    forall k | 0 <= k < Dispatched(t) && t.log[k] !in t.fetching + t.stored
      ensures Explored(cfg, site, exact, t.log, t.pages, Capped(cfg, t), t.log[k])
    {
      if k < Dispatched(s) {
        assert Explored(cfg, site, exact, s.log, s.pages, Capped(cfg, s), s.log[k]);
      }
    }
  }

  lemma CappedDepends(cfg: Config, s: State, t: State)
    requires s.pages == t.pages && s.enqueued == t.enqueued
    ensures Capped(cfg, s) == Capped(cfg, t)
  {
  }

  lemma BeginStartFirst(s: State, busy: set<Item>)
    requires QueueInv(s.log, s.pending, s.enqueued) && |s.pending| > 0
    requires StartFirst(s.log, Dispatched(s), s.fetching + s.stored)
    requires busy <= s.fetching + s.stored + {s.pending[0]}
    ensures StartFirst(s.log, Dispatched(s) + 1, busy)
  {
    assert s.pending[0] == s.log[Dispatched(s)];
    if |s.log| > 1 {
      assert s.log[0].url != s.log[Dispatched(s)].url;
    }
  }

  lemma FrontFits(cfg: Config, start: Url, s: State)
    requires CoreInv(cfg, start, s) && |s.pending| > 0
    ensures QueueInv(s.log, s.pending, s.enqueued)
    ensures |s.pending| <= |s.log| && s.pending[0] == s.log[Dispatched(s)]
    ensures s.pending[0].depth <= cfg.maxDepth && s.pending[0].url !in s.pages
  {
    FrontIsUnstored(s);
  }

  /** What a dispatch does to an item that is not stored and not too deep. */
  lemma BeginShape(cfg: Config, s: State)
    requires |s.pending| > 0 && |s.pending| <= |s.log| && !s.aborted
    requires s.pending[0].depth <= cfg.maxDepth && s.pending[0].url !in s.pages
    ensures var t, x := DispatchOne(cfg, s), s.pending[0];
            && t == s.(pending := s.pending[1..], fetching := t.fetching, closing := t.closing)
            && t.fetching == (if cfg.allowed(x.url) then s.fetching + {x} else s.fetching)
            && t.closing == (if cfg.allowed(x.url) then s.closing else s.closing + {x})
            && Dispatched(t) == Dispatched(s) + 1
  {
  }

  lemma BeginSite(cfg: Config, start: Url, site: Site, exact: bool, s: State)
    requires CoreInv(cfg, start, s) && SiteInv(cfg, site, exact, s) && CanDispatch(cfg, s) && !s.isDone
    ensures SiteInv(cfg, site, exact, DispatchOne(cfg, s))
  {
    hide CoreInv, QueueInv, Closed, Truthful, StartFirst, Capped, DispatchOne, Dispatched, Begin, Active;
    var t := DispatchOne(cfg, s);
    FrontFits(cfg, start, s);
    BeginShape(cfg, s);
    CappedDepends(cfg, s, t);
    BeginClosed(cfg, site, exact, s, t);
    BeginStartFirst(s, t.fetching + t.stored);
  }

  lemma {:induction false} DispatchLoopSite(cfg: Config, start: Url, site: Site, exact: bool, s: State)
    requires CoreInv(cfg, start, s) && SiteInv(cfg, site, exact, s) && !s.isDone
    ensures SiteInv(cfg, site, exact, DispatchLoop(cfg, s))
    decreases |s.pending|
  {
    hide CoreInv, SiteInv;
    if CanDispatch(cfg, s) {
      BeginKeeps(cfg, start, s);
      BeginSite(cfg, start, site, exact, s);
      DispatchLoopSite(cfg, start, site, exact, DispatchOne(cfg, s));
    }
  }

  lemma DispatchSite(cfg: Config, start: Url, site: Site, exact: bool, s: State)
    requires CoreInv(cfg, start, s) && SiteInv(cfg, site, exact, s)
    ensures SiteInv(cfg, site, exact, Dispatch(cfg, s))
  {
    hide CoreInv;
    if !s.isDone {
      DispatchLoopSite(cfg, start, site, exact, s);
    }
  }

  lemma SortedNext(log: seq<Item>, n: nat)
    requires (n == 0 && |log| == 1) || (Sorted(log, n) && n < |log|)
    ensures Sorted(log, n + 1)
  {
  }

  lemma BeginAlone(cfg: Config, s: State)
    requires |s.pending| > 0 && Active(s) == 0
    ensures var t := DispatchOne(cfg, s);
            && t.fetching + t.stored + t.closing == {s.pending[0]} && Active(t) == 1
            && t.log == s.log && t.pending == s.pending[1..]
  {
    assert s.fetching == {} && s.stored == {} && s.closing == {};
  }

  lemma BeginOrder(cfg: Config, start: Url, s: State)
    requires cfg.concurrencyLimit == 1 && CoreInv(cfg, start, s) && IdleOrder(s) && CanDispatch(cfg, s) && !s.isDone
    ensures OrderInv(DispatchOne(cfg, s)) && Active(DispatchOne(cfg, s)) == 1
  {
    FrontFits(cfg, start, s);
    IdleMeans(s);
    assert |s.pending| > 0;
    hide CoreInv, QueueInv, Sorted, DispatchOne, Active, IdleOrder, CanDispatch, OrderInv;
    BeginAlone(cfg, s);
    SortedNext(s.log, Dispatched(s));
    OrderOfOne(DispatchOne(cfg, s), s.pending[0]);
  }

  lemma IdleMeans(s: State)
    requires IdleOrder(s)
    ensures Active(s) == 0 && ((Dispatched(s) == 0 && |s.log| == 1) || Sorted(s.log, Dispatched(s)))
  {
  }

  lemma OrderOfOne(t: State, x: Item)
    requires Sorted(t.log, Dispatched(t)) && t.fetching + t.stored + t.closing == {x}
    requires Dispatched(t) > 0 && t.log[Dispatched(t) - 1] == x
    ensures OrderInv(t)
  {
    hide Sorted;
  }

  lemma OneDispatch(cfg: Config, s: State)
    requires cfg.concurrencyLimit == 1 && CanDispatch(cfg, s) && Active(DispatchOne(cfg, s)) == 1
    ensures DispatchLoop(cfg, s) == DispatchOne(cfg, s)
  {
    hide DispatchOne, Active;
    var t := DispatchOne(cfg, s);
    assert DispatchLoop(cfg, s) == DispatchLoop(cfg, t) == t;
  }

  lemma NoDispatch(cfg: Config, s: State)
    requires GoodConfig(cfg) && cfg.concurrencyLimit == 1 && IdleOrder(s) && !CanDispatch(cfg, s)
    requires |s.pending| <= |s.log| && (Dispatched(s) == 0 ==> s.pages == map[])
    ensures DispatchLoop(cfg, s) == s && OrderInv(s)
  {
    hide Sorted;
    assert s.fetching == {} && s.stored == {} && s.closing == {};
  }

  lemma DispatchLoopOrder(cfg: Config, start: Url, s: State)
    requires GoodConfig(cfg) && cfg.concurrencyLimit == 1 && CoreInv(cfg, start, s) && IdleOrder(s) && !s.isDone
    requires Dispatched(s) == 0 ==> s.pages == map[]
    ensures OrderInv(DispatchLoop(cfg, s))
  {
    QueueFits(cfg, start, s);
    hide CoreInv, IdleOrder, OrderInv, CanDispatch, DispatchOne, DispatchLoop, Dispatched, Sorted, Active;
    if CanDispatch(cfg, s) {
      BeginOrder(cfg, start, s);
      OneDispatch(cfg, s);
    } else {
      NoDispatch(cfg, s);
    }
  }

  lemma CheckFinishedOrder(cfg: Config, s: State)
    requires OrderInv(s)
    ensures OrderInv(CheckFinished(cfg, s))
  {
    hide Sorted, Active;
  }

  lemma DispatchOrder(cfg: Config, start: Url, s: State)
    requires GoodConfig(cfg) && cfg.concurrencyLimit == 1 && CoreInv(cfg, start, s) && IdleOrder(s)
    requires !s.aborted && (Dispatched(s) == 0 ==> s.pages == map[])
    ensures OrderInv(Dispatch(cfg, s)) || (s.isDone && Dispatched(s) == 0)
  {
    hide CoreInv, IdleOrder, OrderInv, Active, DispatchLoop, CheckFinished, Dispatched;
    if s.isDone {
      DoneStays(cfg, s);
      if Dispatched(s) > 0 {
        DoneOrder(s);
      }
    } else {
      DispatchLoopOrder(cfg, start, s);
      CheckFinishedOrder(cfg, DispatchLoop(cfg, s));
    }
  }

  lemma DoneStays(cfg: Config, s: State)
    requires s.isDone
    ensures CheckFinished(cfg, s) == s
  {
  }

  lemma DoneOrder(s: State)
    requires IdleOrder(s) && Dispatched(s) > 0
    ensures OrderInv(s)
  {
    hide Sorted;
    assert s.fetching == {} && s.stored == {} && s.closing == {};
  }

  lemma QueueFits(cfg: Config, start: Url, s: State)
    requires CoreInv(cfg, start, s)
    ensures |s.pending| <= |s.log|
  {
  }

  /** A worker that moves on without touching the queue keeps the order. */
  lemma OrderStays(s: State, t: State)
    requires OrderInv(s) && t.log == s.log && t.pending == s.pending
    requires t.fetching + t.stored + t.closing <= s.fetching + s.stored + s.closing
    ensures OrderInv(t)
  {
  }

  lemma StoreSite(cfg: Config, site: Site, exact: bool, s: State, x: Item)
    requires SiteInv(cfg, site, exact, s) && Dispatched(s) <= |s.log|
    requires x in s.fetching && x.url !in s.pages && site.ok(x.url)
    ensures SiteInv(cfg, site, exact, StorePage(s, x))
  {
    hide Closed;
    var t, n := StorePage(s, x), Dispatched(s);
    assert t.fetching + t.stored == s.fetching + s.stored;
    assert Capped(cfg, s) ==> Capped(cfg, t);
    ClosedGrows(cfg, site, exact, s.log, n, s.fetching + s.stored, s.pages, Capped(cfg, s), t.log, t.pages,
                Capped(cfg, t));
  }

  lemma FailSite(cfg: Config, site: Site, exact: bool, s: State, x: Item)
    requires SiteInv(cfg, site, exact, s) && x in s.fetching && !site.ok(x.url)
    ensures SiteInv(cfg, site, exact, Close(s, x, 1))
  {
    hide Closed;
    var t := Close(s, x, 1);
    ClosedRelease(cfg, site, exact, s.log, Dispatched(s), s.fetching + s.stored, s.pages, Capped(cfg, s), x,
                  t.fetching + t.stored);
  }

  // ---- discovering links ----

  /** What one pass over the links of a page keeps. */
  ghost predicate Level(site: Site, exact: bool, log: seq<Item>, bound: nat) {
    && (exact ==> forall i, j :: 0 <= i <= j < |log| ==> log[i].depth <= log[j].depth)
    && (forall j :: 0 <= j < |log| ==> log[j].depth <= bound)
    && (forall i {:trigger LinkedBy(site, log[i])} :: 0 <= i < |log| ==> LinkedBy(site, log[i]))
  }

  lemma PushLevel(site: Site, exact: bool, log: seq<Item>, bound: nat, x: Item)
    requires Level(site, exact, log, bound) && LinkedBy(site, x) && x.depth <= bound && (exact ==> x.depth == bound)
    ensures Level(site, exact, log + [x], bound)
  {
    forall i | 0 <= i < |log + [x]|
      ensures LinkedBy(site, (log + [x])[i])
    {
      assert i < |log| ==> LinkedBy(site, log[i]) && (log + [x])[i] == log[i];
    }
  }

  lemma PushLinkLevel(cfg: Config, site: Site, exact: bool, s: State, link: Url, from: Item, bound: nat)
    requires QueueInv(s.log, s.pending, s.enqueued) && Level(site, exact, s.log, bound) && link in site.links(from.url)
    requires from.depth + 1 <= bound && (exact ==> from.depth + 1 == bound)
    ensures var t := PushLink(cfg, s, link, from);
            && QueueInv(t.log, t.pending, t.enqueued)
            && Level(site, exact, t.log, bound)
            && (|t.enqueued| < 3 * cfg.maxPages ==> QueuedBy(t.log, link, bound))
  {
    var t := PushLink(cfg, s, link, from);
    var x := Item(link, from.depth + 1, Some(from.url));
    if link in s.enqueued {
      assert Queued(s.log, link);
    } else if |s.enqueued| < cfg.maxPages * 3 {
      hide QueueInv;
      PushKeepsQueue(s.log, s.pending, s.enqueued, x);
      PushLevel(site, exact, s.log, bound, x);
      assert t.log[|s.log|] == x;
    }
  }

  lemma {:induction false} PushLinksLevel(cfg: Config, site: Site, exact: bool, s: State, links: seq<Url>, from: Item,
                                          bound: nat)
    requires QueueInv(s.log, s.pending, s.enqueued) && Level(site, exact, s.log, bound)
    requires forall l :: l in links ==> l in site.links(from.url)
    requires from.depth + 1 <= bound && (exact ==> from.depth + 1 == bound)
    ensures var t := PushLinks(cfg, s, links, from);
            && Level(site, exact, t.log, bound)
            && |s.enqueued| <= |t.enqueued|
            && (|t.enqueued| < 3 * cfg.maxPages ==> forall l :: l in links ==> QueuedBy(t.log, l, bound))
    decreases |links|
  {
    hide QueueInv, Level;
    if links != [] {
      var mid := PushLink(cfg, s, links[0], from);
      var t := PushLinks(cfg, s, links, from);
      PushLinkLevel(cfg, site, exact, s, links[0], from, bound);
      PushLinksLevel(cfg, site, exact, mid, links[1..], from, bound);
      PushLinksExtends(cfg, mid, links[1..], from);
      if |t.enqueued| < 3 * cfg.maxPages {
        QueuedByGrows(mid.log, links[0], bound, t.log);
        forall l | l in links
          ensures QueuedBy(t.log, l, bound)
        {
          assert l == links[0] || l in links[1..];
        }
      }
    }
  }

  /** A page being read sits above everything its links could have been queued at. */
  lemma ReaderLevel(cfg: Config, start: Url, site: Site, exact: bool, s: State, x: Item)
    requires DepthInv(cfg.maxDepth, start, s.log, s.pages) && TakenInv(s.log, Dispatched(s), s.fetching, s.stored, s.closing, s.pages)
    requires Truthful(cfg, site, s.log, s.pages) && StartFirst(s.log, Dispatched(s), s.fetching + s.stored)
    requires exact ==> OrderInv(s)
    requires x in s.stored && (exact || x.depth < cfg.maxDepth)
    ensures Level(site, exact, s.log, Bound(cfg, exact, x))
  {
    if exact {
      assert x in s.fetching + s.stored + s.closing;
    } else if x.depth == 0 {
      assert Taken(s.log, Dispatched(s), x);
      var i :| 0 <= i < Dispatched(s) && i < |s.log| && s.log[i] == x;
      assert i > 0 ==> ParentOk(s.pages, s.log[i]);
    }
  }

  lemma DiscoverExplores(cfg: Config, start: Url, site: Site, exact: bool, s: State, x: Item)
    requires Inv(cfg, start, s) && BfsInv(cfg, site, exact, s) && x in s.stored
    ensures var t := Discover(cfg, s, x, site.links(x.url));
            && (Capped(cfg, s) ==> Capped(cfg, t))
            && (exact ==> Level(site, true, t.log, x.depth + 1))
            && Truthful(cfg, site, t.log, t.pages)
            && Explored(cfg, site, exact, t.log, t.pages, Capped(cfg, t), x)
  {
    hide Closed, DepthInv, TakenInv, StartFirst, OrderInv;
    DiscoverExtends(cfg, s, x, site.links(x.url));
    assert x.url in s.pages;
    if exact || x.depth < cfg.maxDepth {
      ReaderLevel(cfg, start, site, exact, s, x);
    }
    if x.depth < cfg.maxDepth && |s.pages| < cfg.maxPages {
      PushLinksLevel(cfg, site, exact, s, site.links(x.url), x, Bound(cfg, exact, x));
    }
  }

  lemma DiscoverSite(cfg: Config, start: Url, site: Site, exact: bool, s: State, x: Item)
    requires Inv(cfg, start, s) && BfsInv(cfg, site, exact, s) && x in s.stored
    ensures SiteInv(cfg, site, exact, Close(Discover(cfg, s, x, site.links(x.url)), x, 0))
  {
    hide Inv, Discover, OrderInv, Truthful, Closed, Explored, Level, Capped;
    var m := Discover(cfg, s, x, site.links(x.url));
    var t, n := Close(m, x, 0), Dispatched(s);
    DiscoverExplores(cfg, start, site, exact, s, x);
    DiscoverExtends(cfg, s, x, site.links(x.url));
    StartIsRead(cfg, start, s, x);
    CappedDepends(cfg, m, t);
    ClosedGrows(cfg, site, exact, s.log, n, s.fetching + s.stored, s.pages, Capped(cfg, s), t.log, t.pages,
                Capped(cfg, t));
    ClosedRelease(cfg, site, exact, t.log, n, s.fetching + s.stored, t.pages, Capped(cfg, t), x, t.fetching + t.stored);
  }

  lemma DiscoverOrder(cfg: Config, start: Url, site: Site, s: State, x: Item)
    requires Inv(cfg, start, s) && BfsInv(cfg, site, true, s) && x in s.stored
    ensures OrderInv(Close(Discover(cfg, s, x, site.links(x.url)), x, 0))
  {
    hide Inv, Discover, SiteInv, Explored, Truthful, Capped;
    var t, n := Close(Discover(cfg, s, x, site.links(x.url)), x, 0), Dispatched(s);
    DiscoverExplores(cfg, start, site, true, s, x);
    DiscoverExtends(cfg, s, x, site.links(x.url));
    assert x in s.fetching + s.stored + s.closing;
    assert s.log[n - 1] == x == t.log[n - 1];
  }

  /** A page being read is the start page, unless more than the start was queued. */
  lemma StartIsRead(cfg: Config, start: Url, s: State, x: Item)
    requires Inv(cfg, start, s) && x in s.stored
    ensures 0 < Dispatched(s) <= |s.log| && (|s.log| == 1 ==> x == s.log[0]) && x !in s.fetching
  {
    assert Taken(s.log, Dispatched(s), x);
  }

  /** The one worker gone, the crawl is between two items. */
  lemma SettledIsIdle(cfg: Config, start: Url, s: State, x: Item)
    requires GoodConfig(cfg) && cfg.concurrencyLimit == 1
    requires Inv(cfg, start, s) && OrderInv(s) && x in s.closing
    ensures var t := s.(closing := s.closing - {x}); IdleOrder(t) && Dispatched(t) > 0
  {
    LeaveKeeps(cfg, start, s, x);
    hide QueueInv, TakenInv, PhaseInv, DepthInv, DoneInv;
  }

  lemma SettleBfs(cfg: Config, start: Url, site: Site, exact: bool, s: State, x: Item)
    requires GoodConfig(cfg) && (exact ==> cfg.concurrencyLimit == 1)
    requires Inv(cfg, start, s) && BfsInv(cfg, site, exact, s) && x in s.closing
    ensures BfsInv(cfg, site, exact, Apply(cfg, s, Settled(x)))
  {
    var t := s.(closing := s.closing - {x});
    assert SiteInv(cfg, site, exact, t) by { SiteWithout(cfg, site, exact, s, x); }
    assert !s.aborted;
    LeaveKeeps(cfg, start, s, x);
    if exact {
      SettledIsIdle(cfg, start, s, x);
    }
    hide CoreInv, SiteInv, OrderInv, IdleOrder, Dispatch, Active;
    DispatchSite(cfg, start, site, exact, t);
    if exact {
      DispatchOrder(cfg, start, t);
    }
  }

  lemma SiteWithout(cfg: Config, site: Site, exact: bool, s: State, x: Item)
    requires SiteInv(cfg, site, exact, s)
    ensures SiteInv(cfg, site, exact, s.(closing := s.closing - {x}))
  {
    hide Closed, Truthful, StartFirst;
  }

  lemma FetchedBfs(cfg: Config, site: Site, exact: bool, s: State, x: Item)
    requires BfsInv(cfg, site, exact, s) && x in s.fetching && site.ok(x.url)
    requires x.url !in s.pages && Dispatched(s) <= |s.log|
    ensures BfsInv(cfg, site, exact, StorePage(s, x))
  {
    hide SiteInv, Sorted;
    StoreSite(cfg, site, exact, s, x);
    if exact {
      OrderStays(s, StorePage(s, x));
    }
  }

  lemma FetchFits(cfg: Config, start: Url, s: State, x: Item)
    requires Inv(cfg, start, s) && x in s.fetching
    ensures x.url !in s.pages && Dispatched(s) <= |s.log|
  {
  }

  lemma FailedBfs(cfg: Config, site: Site, exact: bool, s: State, x: Item)
    requires BfsInv(cfg, site, exact, s) && x in s.fetching && !site.ok(x.url)
    ensures BfsInv(cfg, site, exact, Close(s, x, 1))
  {
    hide SiteInv, Sorted;
    FailSite(cfg, site, exact, s, x);
    if exact {
      OrderStays(s, Close(s, x, 1));
    }
  }

  lemma ApplyBfs(cfg: Config, start: Url, site: Site, exact: bool, s: State, e: Event)
    requires GoodConfig(cfg) && (exact ==> cfg.concurrencyLimit == 1)
    requires Inv(cfg, start, s) && BfsInv(cfg, site, exact, s) && Enabled(s, e) && Follows(site, e)
    ensures BfsInv(cfg, site, exact, Apply(cfg, s, e))
  {
    hide Inv, SiteInv, OrderInv, Dispatch, Discover, StorePage, Close;
    match e
    case Fetched(x) =>
      FetchFits(cfg, start, s, x);
      FetchedBfs(cfg, site, exact, s, x);
    case FetchFailed(x) => FailedBfs(cfg, site, exact, s, x);
    case CallbackOk(x, links) =>
      DiscoverSite(cfg, start, site, exact, s, x);
      if exact {
        DiscoverOrder(cfg, start, site, s, x);
      }
    case CallbackThrew(x) =>
    case Settled(x) => SettleBfs(cfg, start, site, exact, s, x);
    case Abort =>
  }

  lemma StartBfs(cfg: Config, start: Url, site: Site, exact: bool)
    requires GoodConfig(cfg) && (exact ==> cfg.concurrencyLimit == 1)
    ensures BfsInv(cfg, site, exact, Start(cfg, start, false))
  {
    var s := Push(Fresh(false), Item(start, 0, None));
    QueuedStartIsCore(cfg, start, false);
    assert SiteInv(cfg, site, exact, s);
    DispatchSite(cfg, start, site, exact, s);
    if exact {
      DispatchOrder(cfg, start, s);
    }
  }

  lemma {:induction false} ExecBfs(cfg: Config, start: Url, site: Site, exact: bool, s: State, es: seq<Event>)
    requires GoodConfig(cfg) && (exact ==> cfg.concurrencyLimit == 1)
    requires Inv(cfg, start, s) && BfsInv(cfg, site, exact, s)
    requires Possible(cfg, s, es) && forall e :: e in es ==> Follows(site, e)
    ensures BfsInv(cfg, site, exact, Exec(cfg, s, es)) && Inv(cfg, start, Exec(cfg, s, es))
    decreases |es|
  {
    hide Inv, BfsInv, Apply, Enabled, Follows;
    if es != [] {
      ApplyKeeps(cfg, start, s, es[0]);
      ApplyBfs(cfg, start, site, exact, s, es[0]);
      ExecBfs(cfg, start, site, exact, Apply(cfg, s, es[0]), es[1..]);
    }
  }

  // ---- the finished crawl against the reference ----

  /** Every good link of a good page was queued no deeper than one level below it. */
  ghost predicate LinksAreNear(cfg: Config, site: Site, log: seq<Item>) {
    forall k, v {:trigger QueuedBy(log, v, log[k].depth + 1)} ::
      0 <= k < |log| && Good(cfg, site, log[k].url) && log[k].depth < cfg.maxDepth
      && v in site.links(log[k].url) && Good(cfg, site, v)
      ==> QueuedBy(log, v, log[k].depth + 1)
  }

  /** What a crawl has become once it is over and no cap was met. */
  ghost predicate Complete(cfg: Config, start: Url, site: Site, s: State) {
    && QueueInv(s.log, [], s.enqueued)
    && PageInv(s.log, |s.log|, s.pages)
    && DepthInv(cfg.maxDepth, start, s.log, s.pages)
    && Truthful(cfg, site, s.log, s.pages)
    && (forall k :: 0 <= k < |s.log| && Good(cfg, site, s.log[k].url) ==> s.log[k].url in s.pages)
    && LinksAreNear(cfg, site, s.log)
  }

  /** When it is over and no cap was met, everything queued is explored. */
  lemma DoneIsClosed(cfg: Config, start: Url, site: Site, exact: bool, s: State)
    requires Inv(cfg, start, s) && BfsInv(cfg, site, exact, s) && s.isDone && !Capped(cfg, s)
    ensures s.pending == [] && Closed(cfg, site, exact, s.log, |s.log|, {}, s.pages, false)
  {
    assert s.fetching == {} && s.stored == {};
    assert s.fetching + s.stored == {};
  }

  lemma DoneIsComplete(cfg: Config, start: Url, site: Site, exact: bool, s: State)
    requires Inv(cfg, start, s) && BfsInv(cfg, site, exact, s) && s.isDone && !Capped(cfg, s)
    requires LinksAreNear(cfg, site, s.log)
    ensures Complete(cfg, start, site, s)
  {
    DoneIsClosed(cfg, start, site, exact, s);
    hide QueueInv, DepthInv, LinksAreNear, Truthful;
    forall k | 0 <= k < |s.log| && Good(cfg, site, s.log[k].url)
      ensures s.log[k].url in s.pages
    {
      assert Explored(cfg, site, exact, s.log, s.pages, false, s.log[k]);
    }
  }

  /** With one worker, or two levels, no link is queued too deep. */
  lemma ClosedIsNear(cfg: Config, site: Site, exact: bool, log: seq<Item>, pages: map<Url, Page>)
    requires Closed(cfg, site, exact, log, |log|, {}, pages, false) && (exact || cfg.maxDepth <= 2)
    ensures LinksAreNear(cfg, site, log)
  {
    forall k, v | 0 <= k < |log| && Good(cfg, site, log[k].url) && log[k].depth < cfg.maxDepth && v in site.links(log[k].url)
      ensures QueuedBy(log, v, log[k].depth + 1)
    {
      assert Explored(cfg, site, exact, log, pages, false, log[k]);
      assert QueuedBy(log, v, Bound(cfg, exact, log[k]));
    }
  }

  lemma Step(cfg: Config, start: Url, site: Site, s: State, u: Url, v: Url, h: nat)
    requires Complete(cfg, start, site, s) && QueuedBy(s.log, u, h) && h < cfg.maxDepth
    requires Good(cfg, site, u) && v in site.links(u) && Good(cfg, site, v)
    ensures QueuedBy(s.log, v, h + 1)
  {
    var k :| 0 <= k < |s.log| && s.log[k].url == u && s.log[k].depth <= h;
    assert QueuedBy(s.log, v, s.log[k].depth + 1);
  }

  /** Whatever good page a walk reaches within the depth limit was queued, no deeper than the walk is long. */
  lemma {:induction false} WalkIsQueued(cfg: Config, start: Url, site: Site, s: State, w: seq<Url>)
    requires Complete(cfg, start, site, s) && Walk(cfg, site, w) && w[0] == start && |w| <= cfg.maxDepth + 1
    requires Good(cfg, site, w[|w| - 1])
    ensures QueuedBy(s.log, w[|w| - 1], |w| - 1)
    decreases |w|
  {
    if |w| == 1 {
      assert s.log[0].url == start;
    } else {
      var v := w[..|w| - 1];
      assert w[|w| - 2] == v[|v| - 1];
      WalkIsQueued(cfg, start, site, s, v);
      Step(cfg, start, site, s, w[|w| - 2], w[|w| - 1], |w| - 2);
    }
  }

  /** Everything queued is reached by a walk as long as its depth: the chain of its parents. */
  lemma {:induction false} QueuedHasWalk(cfg: Config, start: Url, site: Site, log: seq<Item>, n: int,
                                         pages: map<Url, Page>, k: nat)
    requires PageInv(log, n, pages) && DepthInv(cfg.maxDepth, start, log, pages) && Truthful(cfg, site, log, pages)
    requires k < |log|
    ensures Reaches(cfg, site, start, log[k].url, log[k].depth)
    decreases log[k].depth
  {
    var x := log[k];
    if k == 0 {
      assert Walk(cfg, site, [start]);
    } else {
      assert ParentOk(pages, x) && LinkedBy(site, x);
      var p := x.parent.value;
      assert PageTaken(log, n, pages, p);
      var i :| 0 <= i < |log| && log[i] == Item(p, pages[p].depth, pages[p].parent);
      QueuedHasWalk(cfg, start, site, log, n, pages, i);
      var w :| Walk(cfg, site, w) && w[0] == start && w[|w| - 1] == p && |w| == log[i].depth + 1;
      var longer := w + [x.url];
      assert Walk(cfg, site, longer) && longer[|longer| - 1] == x.url;
    }
  }

  /** With any number of workers a stored page is good and a walk as long as its depth leads to it. */
  lemma CrawlIsSound(cfg: Config, start: Url, site: Site, es: seq<Event>, u: Url)
    requires GoodConfig(cfg)
    requires Possible(cfg, Start(cfg, start, false), es) && forall e :: e in es ==> Follows(site, e)
    requires u in Exec(cfg, Start(cfg, start, false), es).pages
    ensures var depth := Exec(cfg, Start(cfg, start, false), es).pages[u].depth;
            Good(cfg, site, u) && depth <= cfg.maxDepth && Reaches(cfg, site, start, u, depth)
  {
    hide Start, Exec, Possible, Follows;
    var s := Exec(cfg, Start(cfg, start, false), es);
    StartKeeps(cfg, start, false);
    StartBfs(cfg, start, site, false);
    ExecBfs(cfg, start, site, false, Start(cfg, start, false), es);
    assert PageTaken(s.log, Dispatched(s), s.pages, u);
    var k :| 0 <= k < |s.log| && s.log[k] == Item(u, s.pages[u].depth, s.pages[u].parent);
    QueuedHasWalk(cfg, start, site, s.log, Dispatched(s), s.pages, k);
  }

  lemma ReachedIsShallow(cfg: Config, start: Url, site: Site, s: State, k: nat, h: nat)
    requires Complete(cfg, start, site, s) && k < |s.log| && h <= cfg.maxDepth
    requires Good(cfg, site, s.log[k].url) && Reaches(cfg, site, start, s.log[k].url, h)
    ensures s.log[k].depth <= h
  {
    var u := s.log[k].url;
    var w :| Walk(cfg, site, w) && w[0] == start && w[|w| - 1] == u && |w| == h + 1;
    WalkIsQueued(cfg, start, site, s, w);
    assert QueuedBy(s.log, u, h);
  }

  lemma PageIsShortest(cfg: Config, start: Url, site: Site, s: State, u: Url)
    requires Complete(cfg, start, site, s) && u in s.pages
    ensures Good(cfg, site, u) && s.pages[u].depth <= cfg.maxDepth
    ensures Reaches(cfg, site, start, u, s.pages[u].depth)
    ensures forall h: nat :: h < s.pages[u].depth ==> !Reaches(cfg, site, start, u, h)
  {
    assert PageTaken(s.log, |s.log|, s.pages, u);
    var k :| 0 <= k < |s.log| && s.log[k] == Item(u, s.pages[u].depth, s.pages[u].parent);
    QueuedHasWalk(cfg, start, site, s.log, |s.log|, s.pages, k);
    forall h: nat | h < s.pages[u].depth
      ensures !Reaches(cfg, site, start, u, h)
    {
      if Reaches(cfg, site, start, u, h) {
        ReachedIsShallow(cfg, start, site, s, k, h);
      }
    }
  }

  lemma ReachableIsStored(cfg: Config, start: Url, site: Site, s: State, u: Url, h: nat)
    requires Complete(cfg, start, site, s)
    requires Good(cfg, site, u) && h <= cfg.maxDepth && Reaches(cfg, site, start, u, h)
    ensures u in s.pages
  {
    var w :| Walk(cfg, site, w) && w[0] == start && w[|w| - 1] == u && |w| == h + 1;
    WalkIsQueued(cfg, start, site, s, w);
    var k :| 0 <= k < |s.log| && s.log[k].url == u;
  }

  /** The crawl is over, has reached neither cap, and nothing was aborted or threw. */
  ghost predicate IsCrawl(cfg: Config, start: Url, site: Site, es: seq<Event>) {
    && Possible(cfg, Start(cfg, start, false), es) && (forall e :: e in es ==> Follows(site, e))
    && var s := Exec(cfg, Start(cfg, start, false), es);
       s.isDone && Uncapped(cfg, s.pages, s.enqueued)
  }

  /** Exactly the pages within the depth limit are stored, each at its shortest distance. */
  ghost predicate IsBreadthFirst(cfg: Config, start: Url, site: Site, es: seq<Event>) {
    var pages := Exec(cfg, Start(cfg, start, false), es).pages;
    && (forall u :: u in pages <==>
         Good(cfg, site, u) && exists h: nat :: h <= cfg.maxDepth && Reaches(cfg, site, start, u, h))
    && (forall u :: u in pages ==>
         && Reaches(cfg, site, start, u, pages[u].depth)
         && forall h: nat :: h < pages[u].depth ==> !Reaches(cfg, site, start, u, h))
  }

  lemma CompleteIsBreadthFirst(cfg: Config, start: Url, site: Site, es: seq<Event>)
    requires Complete(cfg, start, site, Exec(cfg, Start(cfg, start, false), es))
    ensures IsBreadthFirst(cfg, start, site, es)
  {
    hide Complete, Start, Exec, Good, Reaches;
    var s := Exec(cfg, Start(cfg, start, false), es);
    forall u | u in s.pages
      ensures Good(cfg, site, u) && s.pages[u].depth <= cfg.maxDepth
      ensures Reaches(cfg, site, start, u, s.pages[u].depth)
      ensures forall h: nat :: h < s.pages[u].depth ==> !Reaches(cfg, site, start, u, h)
    {
      PageIsShortest(cfg, start, site, s, u);
    }
    forall u, h: nat | Good(cfg, site, u) && h <= cfg.maxDepth && Reaches(cfg, site, start, u, h)
      ensures u in s.pages
    {
      ReachableIsStored(cfg, start, site, s, u, h);
    }
  }

  /**
   A crawl of a site that ended without an abort and without meeting a cap has stored exactly
   the good pages within maxDepth links, each at its shortest distance, whatever the
   interleaving, if there is one worker or the depth limit is at most two.
   */
  lemma CrawlIsBreadthFirst(cfg: Config, start: Url, site: Site, es: seq<Event>)
    requires GoodConfig(cfg) && (cfg.concurrencyLimit == 1 || cfg.maxDepth <= 2)
    requires IsCrawl(cfg, start, site, es)
    ensures IsBreadthFirst(cfg, start, site, es)
  {
    hide Inv, BfsInv, Complete, Closed, LinksAreNear, Start, Exec, Possible, Follows, IsBreadthFirst;
    var s := Exec(cfg, Start(cfg, start, false), es);
    var exact := cfg.concurrencyLimit == 1;
    StartKeeps(cfg, start, false);
    StartBfs(cfg, start, site, exact);
    ExecBfs(cfg, start, site, exact, Start(cfg, start, false), es);
    DoneIsClosed(cfg, start, site, exact, s);
    ClosedIsNear(cfg, site, exact, s.log, s.pages);
    DoneIsComplete(cfg, start, site, exact, s);
    CompleteIsBreadthFirst(cfg, start, site, es);
  }
}
