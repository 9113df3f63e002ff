/**
 Why a small budget, or a robots rule that allows few addresses, keeps the crawl breadth-first,
 whatever the depth limit and the number of workers: a page recorded too deep needs five stored
 pages.
 */
module CrawlerBudget {
  import opened Options
  import opened CrawlerModel
  import opened CrawlerSafety
  import opened CrawlerBfs
  import opened FiniteSets

  /** `u` is one of the first `n` addresses queued. */
  ghost predicate Occurs(log: seq<Item>, n: int, u: Url) {
    exists i :: 0 <= i < n && i < |log| && log[i].url == u
  }

  /** All links of `p` are among the first `n` addresses queued. */
  ghost predicate LinksIn(site: Site, log: seq<Item>, n: int, p: Url) {
    forall l {:trigger Occurs(log, n, l)} :: l in site.links(p) ==> Occurs(log, n, l)
  }

  /** The item was queued by the one at `i`; all links of that one's own parent were queued before. */
  ghost predicate QueuedFrom(site: Site, log: seq<Item>, i: int, j: int) {
    && 0 <= i < j < |log|
    && log[j].parent == Some(log[i].url)
    && (log[i].parent.Some? ==> LinksIn(site, log, j, log[i].parent.value))
  }

  ghost predicate HasOrigin(site: Site, log: seq<Item>, j: int) {
    0 <= j < |log| && log[j].parent.Some? ==>
      LinksIn(site, log, |log|, log[j].parent.value) && exists i :: QueuedFrom(site, log, i, j)
  }

  /** A page is read as a whole: nothing is queued below its links before all of them are. */
  ghost predicate ReadInv(site: Site, log: seq<Item>) {
    forall j :: HasOrigin(site, log, j)
  }

  lemma LinksInGrows(site: Site, log: seq<Item>, n: int, more: seq<Item>, m: int, p: Url)
    requires LinksIn(site, log, n, p) && log <= more && n <= m
    ensures LinksIn(site, more, m, p)
  {
    forall l | l in site.links(p)
      ensures Occurs(more, m, l)
    {
      assert Occurs(log, n, l);
      var i :| 0 <= i < n && i < |log| && log[i].url == l;
      assert more[i].url == l;
    }
  }

  lemma OldOrigin(site: Site, log: seq<Item>, more: seq<Item>, j: int)
    requires HasOrigin(site, log, j) && log <= more && 0 <= j < |log|
    ensures HasOrigin(site, more, j)
  {
    hide LinksIn;
    if log[j].parent.Some? {
      assert more[j] == log[j];
      LinksInGrows(site, log, |log|, more, |more|, log[j].parent.value);
      var i :| QueuedFrom(site, log, i, j);
      assert more[i] == log[i];
      if log[i].parent.Some? {
        LinksInGrows(site, log, j, more, j, log[i].parent.value);
      }
      assert QueuedFrom(site, more, i, j);
    }
  }

  /** Reading `x` queues its links behind those of its parent. */
  lemma NewOrigin(site: Site, log: seq<Item>, more: seq<Item>, k: nat, j: int)
    requires k < |log| && HasOrigin(site, log, k) && log <= more && |log| <= j < |more|
    requires more[j].parent == Some(log[k].url) && LinksIn(site, more, |more|, log[k].url)
    ensures HasOrigin(site, more, j)
  {
    hide LinksIn;
    assert more[k] == log[k];
    if log[k].parent.Some? {
      LinksInGrows(site, log, |log|, more, j, log[k].parent.value);
    }
    assert QueuedFrom(site, more, k, j);
  }

  lemma ReadKeepsOrigins(site: Site, log: seq<Item>, more: seq<Item>, k: nat)
    requires ReadInv(site, log) && log <= more && k < |log|
    requires forall j :: |log| <= j < |more| ==> more[j].parent == Some(log[k].url)
    requires LinksIn(site, more, |more|, log[k].url)
    ensures ReadInv(site, more)
  {
    hide LinksIn, HasOrigin;
    forall j
      ensures HasOrigin(site, more, j)
    {
      if 0 <= j < |log| {
        OldOrigin(site, log, more, j);
      } else if |log| <= j < |more| {
        assert HasOrigin(site, log, k);
        NewOrigin(site, log, more, k, j);
      } else {
        NoOrigin(site, more, j);
      }
    }
  }

  lemma NoOrigin(site: Site, log: seq<Item>, j: int)
    requires !(0 <= j < |log|)
    ensures HasOrigin(site, log, j)
  {
  }

  // ---- every run keeps it until a cap is met ----

  ghost predicate UncappedRead(cfg: Config, site: Site, s: State) {
    !Capped(cfg, s) ==> ReadInv(site, s.log)
  }

  lemma {:induction false} PushLinksParents(cfg: Config, s: State, links: seq<Url>, from: Item)
    ensures var t := PushLinks(cfg, s, links, from);
            s.log <= t.log && forall j :: |s.log| <= j < |t.log| ==> t.log[j].parent == Some(from.url)
    decreases |links|
  {
    if links != [] {
      PushLinksParents(cfg, PushLink(cfg, s, links[0], from), links[1..], from);
    }
  }

  lemma ExploredMeansRead(cfg: Config, site: Site, log: seq<Item>, pages: map<Url, Page>, x: Item)
    requires Explored(cfg, site, false, log, pages, false, x) && Good(cfg, site, x.url) && x.depth < cfg.maxDepth
    ensures LinksIn(site, log, |log|, x.url)
  {
    forall l | l in site.links(x.url)
      ensures Occurs(log, |log|, l)
    {
      assert QueuedBy(log, l, Bound(cfg, false, x));
    }
  }

  lemma DiscoverKeepsRead(cfg: Config, start: Url, site: Site, s: State, x: Item)
    requires Inv(cfg, start, s) && BfsInv(cfg, site, false, s) && UncappedRead(cfg, site, s) && x in s.stored
    ensures UncappedRead(cfg, site, Discover(cfg, s, x, site.links(x.url)))
  {
    var t := Discover(cfg, s, x, site.links(x.url));
    DiscoverExplores(cfg, start, site, false, s, x);
    if !Capped(cfg, t) && x.depth < cfg.maxDepth && |s.pages| < cfg.maxPages {
      assert Taken(s.log, Dispatched(s), x);
      var k :| 0 <= k < |s.log| && s.log[k] == x;
      assert Good(cfg, site, x.url);
      hide Inv, BfsInv, Explored, ReadInv, LinksIn, Capped, Good;
      PushLinksParents(cfg, s, site.links(x.url), x);
      ExploredMeansRead(cfg, site, t.log, t.pages, x);
      ReadKeepsOrigins(site, s.log, t.log, k);
    }
  }

  lemma {:induction false} DispatchLoopKeepsLog(cfg: Config, s: State)
    ensures var t := DispatchLoop(cfg, s); t.log == s.log && t.pages == s.pages && t.enqueued == s.enqueued
    decreases |s.pending|
  {
    if CanDispatch(cfg, s) {
      DispatchLoopKeepsLog(cfg, DispatchOne(cfg, s));
    }
  }

  lemma OthersKeepLog(cfg: Config, s: State, e: Event)
    requires Enabled(s, e) && !e.CallbackOk? && (e.Fetched? ==> e.item.url !in s.pages)
    ensures Apply(cfg, s, e).log == s.log
    ensures Capped(cfg, s) ==> Capped(cfg, Apply(cfg, s, e))
  {
    if e.Settled? {
      hide DispatchLoop;
      DispatchLoopKeepsLog(cfg, s.(closing := s.closing - {e.item}));
    }
  }

  lemma ApplyKeepsRead(cfg: Config, start: Url, site: Site, s: State, e: Event)
    requires Inv(cfg, start, s) && BfsInv(cfg, site, false, s) && UncappedRead(cfg, site, s)
    requires Enabled(s, e) && Follows(site, e)
    ensures UncappedRead(cfg, site, Apply(cfg, s, e))
  {
    if e.Fetched? {
      FetchFits(cfg, start, s, e.item);
    }
    hide Inv, BfsInv, ReadInv;
    if e.CallbackOk? {
      hide Discover;
      DiscoverKeepsRead(cfg, start, site, s, e.item);
    } else {
      hide Capped, Apply;
      OthersKeepLog(cfg, s, e);
    }
  }

  lemma {:induction false} ExecKeepsRead(cfg: Config, start: Url, site: Site, s: State, es: seq<Event>)
    requires GoodConfig(cfg) && Inv(cfg, start, s) && BfsInv(cfg, site, false, s) && UncappedRead(cfg, site, s)
    requires Possible(cfg, s, es) && forall e :: e in es ==> Follows(site, e)
    ensures UncappedRead(cfg, site, Exec(cfg, s, es))
    decreases |es|
  {
    hide Inv, BfsInv, UncappedRead, Apply, Enabled, Follows;
    if es != [] {
      ApplyKeeps(cfg, start, s, es[0]);
      ApplyBfs(cfg, start, site, false, s, es[0]);
      ApplyKeepsRead(cfg, start, site, s, es[0]);
      ExecKeepsRead(cfg, start, site, Apply(cfg, s, es[0]), es[1..]);
    }
  }

  lemma StartIsUncappedRead(cfg: Config, start: Url, site: Site)
    ensures UncappedRead(cfg, site, Start(cfg, start, false))
  {
    var s := Push(Fresh(false), Item(start, 0, None));
    DispatchLoopKeepsLog(cfg, s);
    hide DispatchLoop, Capped;
    assert s.log == [Item(start, 0, None)];
    assert ReadInv(site, s.log);
  }

  // ---- a page recorded too deep needs five stored pages ----

  /** The page that queued an item stands before it, one level higher. */
  lemma Origin(cfg: Config, start: Url, site: Site, log: seq<Item>, pages: map<Url, Page>, enqueued: set<Url>, j: nat)
    returns (i: nat)
    requires QueueInv(log, [], enqueued) && PageInv(log, |log|, pages) && DepthInv(cfg.maxDepth, start, log, pages)
    requires ReadInv(site, log) && j < |log| && log[j].depth > 0
    ensures QueuedFrom(site, log, i, j) && log[i].depth + 1 == log[j].depth && log[i].url in pages
  {
    assert ParentOk(pages, log[j]);
    assert HasOrigin(site, log, j);
    var p := log[j].parent.value;
    assert PageTaken(log, |log|, pages, p);
    i :| QueuedFrom(site, log, i, j);
    hide LinksIn;
    var k :| 0 <= k < |log| && log[k] == Item(p, pages[p].depth, pages[p].parent);
    assert i == k;
  }

  /** What stands behind all links of a page is none of its own links. */
  lemma NotBehind(site: Site, log: seq<Item>, enqueued: set<Url>, n: int, k: nat, j: nat)
    requires QueueInv(log, [], enqueued) && j < |log| && k < |log| && n <= j
    requires LinksIn(site, log, n, log[k].url)
    ensures log[j].url !in site.links(log[k].url)
  {
    assert !Occurs(log, n, log[j].url);
  }

  ghost predicate AllDifferent(us: seq<Url>) {
    forall i, j :: 0 <= i < j < |us| ==> us[i] != us[j]
  }

  /** Five different addresses with pages. */
  ghost predicate FiveOf(us: seq<Url>, pages: set<Url>) {
    |us| == 5 && AllDifferent(us) && forall u :: u in us ==> u in pages
  }

  lemma DeepNeedsFivePages(cfg: Config, start: Url, site: Site, log: seq<Item>, pages: map<Url, Page>, enqueued: set<Url>,
                           k: nat, j: nat)
    requires QueueInv(log, [], enqueued) && PageInv(log, |log|, pages) && DepthInv(cfg.maxDepth, start, log, pages)
    requires ReadInv(site, log) && k < |log| && j < |log|
    requires log[k].url in pages && log[j].url in pages && log[j].url in site.links(log[k].url)
    requires 0 < log[k].depth && log[k].depth + 1 < log[j].depth
    ensures exists us :: FiveOf(us, pages.Keys)
  {
    hide PageInv, DepthInv, ReadInv, LinksIn, FiveOf;
    var a := Origin(cfg, start, site, log, pages, enqueued, j);
    var b := Origin(cfg, start, site, log, pages, enqueued, a);
    var c := Origin(cfg, start, site, log, pages, enqueued, b);
    if k == b {
      NotBehind(site, log, enqueued, j, k, j);
    }
    if k == c {
      NotBehind(site, log, enqueued, a, k, j);
    }
    FiveDifferent(log, pages, enqueued, k, j, a, b, c);
  }

  lemma FiveDifferent(log: seq<Item>, pages: map<Url, Page>, enqueued: set<Url>, k: nat, j: nat, a: nat, b: nat, c: nat)
    requires QueueInv(log, [], enqueued) && k < |log| && 0 <= c < b < a < j < |log| && k != j && k != a && k != b && k != c
    requires log[k].url in pages && log[j].url in pages && log[a].url in pages && log[b].url in pages && log[c].url in pages
    ensures FiveOf([log[k].url, log[c].url, log[b].url, log[a].url, log[j].url], pages.Keys)
  {
  }

  lemma SmallIsNear(cfg: Config, start: Url, site: Site, s: State)
    requires Inv(cfg, start, s) && BfsInv(cfg, site, false, s) && s.isDone && !Capped(cfg, s)
    requires ReadInv(site, s.log) && forall us :: !FiveOf(us, s.pages.Keys)
    ensures LinksAreNear(cfg, site, s.log)
  {
    DoneIsClosed(cfg, start, site, false, s);
    hide BfsInv, Capped, ReadInv, PhaseInv, BudgetInv, DoneInv, QueueInv, PageInv, DepthInv, Good, FiveOf;
    forall k, v | 0 <= k < |s.log| && Good(cfg, site, s.log[k].url) && s.log[k].depth < cfg.maxDepth
                  && v in site.links(s.log[k].url) && Good(cfg, site, v)
      ensures QueuedBy(s.log, v, s.log[k].depth + 1)
    {
      assert Explored(cfg, site, false, s.log, s.pages, false, s.log[k]);
      assert QueuedBy(s.log, v, Bound(cfg, false, s.log[k]));
      var j :| 0 <= j < |s.log| && s.log[j].url == v && s.log[j].depth <= Bound(cfg, false, s.log[k]);
      assert Explored(cfg, site, false, s.log, s.pages, false, s.log[j]);
      if s.log[j].depth > s.log[k].depth + 1 {
        DeepNeedsFivePages(cfg, start, site, s.log, s.pages, s.enqueued, k, j);
      }
    }
  }

  /** The robots rule allows five different addresses. */
  ghost predicate AllowsFive(cfg: Config) {
    exists us :: |us| == 5 && AllDifferent(us) && forall u :: u in us ==> cfg.allowed(u)
  }

  lemma HoldsNoFive(cfg: Config, site: Site, s: State)
    requires Truthful(cfg, site, s.log, s.pages) && (|s.pages| < 5 || !AllowsFive(cfg))
    ensures forall us :: !FiveOf(us, s.pages.Keys)
  {
    forall us
      ensures !FiveOf(us, s.pages.Keys)
    {
      if |s.pages| < 5 && |us| == 5 && AllDifferent(us) {
        var five := {us[0], us[1], us[2], us[3], us[4]};
        assert |five| == 5;
        assert |s.pages.Keys| == |s.pages|;
        if five <= s.pages.Keys {
          SubsetSize(five, s.pages.Keys);
        }
      }
    }
  }

  /** With a budget of at most five pages, or so few allowed addresses, every crawl that meets no cap is breadth-first. */
  lemma SmallCrawlIsBreadthFirst(cfg: Config, start: Url, site: Site, es: seq<Event>)
    requires GoodConfig(cfg) && (cfg.maxPages <= 5 || !AllowsFive(cfg)) && IsCrawl(cfg, start, site, es)
    ensures IsBreadthFirst(cfg, start, site, es)
  {
    hide Inv, BfsInv, Complete, ReadInv, LinksAreNear, Start, Exec, Possible, Follows, IsBreadthFirst, AllowsFive, FiveOf;
    var s := Exec(cfg, Start(cfg, start, false), es);
    StartKeeps(cfg, start, false);
    StartBfs(cfg, start, site, false);
    StartIsUncappedRead(cfg, start, site);
    ExecBfs(cfg, start, site, false, Start(cfg, start, false), es);
    ExecKeepsRead(cfg, start, site, Start(cfg, start, false), es);
    SiteIsTruthful(cfg, site, s);
    HoldsNoFive(cfg, site, s);
    SmallIsNear(cfg, start, site, s);
    DoneIsComplete(cfg, start, site, false, s);
    CompleteIsBreadthFirst(cfg, start, site, es);
  }

  lemma SiteIsTruthful(cfg: Config, site: Site, s: State)
    requires BfsInv(cfg, site, false, s)
    ensures Truthful(cfg, site, s.log, s.pages)
  {
  }
}
