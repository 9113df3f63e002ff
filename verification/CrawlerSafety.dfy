/** What every interleaving of the crawler's workers keeps, and why every crawl ends. */
module CrawlerSafety {
  import opened Options
  import opened CrawlerModel
  import opened FiniteSets

  /** Storing a page keeps the parents of every queued item stored. */
  lemma StoreKeepsDepth(maxDepth: nat, start: Url, log: seq<Item>, pages: map<Url, Page>, u: Url, p: Page)
    requires DepthInv(maxDepth, start, log, pages) && u !in pages
    ensures DepthInv(maxDepth, start, log, pages[u := p])
  {
    forall i | 0 < i < |log|
      ensures ParentOk(pages[u := p], log[i])
    {
      assert ParentOk(pages, log[i]);
    }
  }

  lemma StoreKeepsPages(log: seq<Item>, n: int, pages: map<Url, Page>, x: Item)
    requires PageInv(log, n, pages) && Taken(log, n, x)
    ensures PageInv(log, n, pages[x.url := Page(x.depth, x.parent)])
  {
    var more := pages[x.url := Page(x.depth, x.parent)];
    forall u | u in more
      ensures PageTaken(log, n, more, u)
    {
      if u != x.url {
        assert PageTaken(log, n, pages, u);
      }
    }
  }

  /** Two dispatched items with one URL are one item. */
  lemma TakenUnique(log: seq<Item>, pending: seq<Item>, enqueued: set<Url>, n: int, x: Item, y: Item)
    requires QueueInv(log, pending, enqueued) && Taken(log, n, x) && Taken(log, n, y) && x.url == y.url
    ensures x == y
  {
  }

  lemma StoreKeepsTaken(s: State, x: Item)
    requires TakenInv(s.log, Dispatched(s), s.fetching, s.stored, s.closing, s.pages) && x in s.fetching
    ensures var t := StorePage(s, x);
            TakenInv(t.log, Dispatched(t), t.fetching, t.stored, t.closing, t.pages)
  {
    var t, n := StorePage(s, x), Dispatched(s);
    assert Taken(s.log, n, x);
    hide PageInv, AllTaken;
    StoreKeepsPages(s.log, n, s.pages, x);
    AllTakenWithin(s.log, n, s.stored, x, t.stored);
    AllTakenWithin(s.log, n, s.fetching, x, t.fetching);
  }

  lemma StoreKeepsPhases(s: State, x: Item)
    requires QueueInv(s.log, s.pending, s.enqueued) && x in s.fetching
    requires TakenInv(s.log, Dispatched(s), s.fetching, s.stored, s.closing, s.pages)
    requires PhaseInv(s.fetching, s.stored, s.closing, s.pages)
    ensures var t := StorePage(s, x);
            PhaseInv(t.fetching, t.stored, t.closing, t.pages) && x.url !in s.pages
  {
    hide PageInv, QueueInv;
    var t, n := StorePage(s, x), Dispatched(s);
    forall y | y in t.fetching
      ensures y.url !in t.pages
    {
      if y.url == x.url {
        assert Taken(s.log, n, x) && Taken(s.log, n, y);
        TakenUnique(s.log, s.pending, s.enqueued, n, x, y);
      }
    }
    hide Taken, AllTaken;
  }

  lemma StoreKeepsBudget(cfg: Config, s: State, x: Item)
    requires BudgetInv(cfg, s) && DoneInv(cfg, s) && x in s.fetching && x !in s.stored && x.url !in s.pages
    ensures BudgetInv(cfg, StorePage(s, x)) && DoneInv(cfg, StorePage(s, x))
    ensures Active(StorePage(s, x)) == Active(s) > 0
  {
    var t := StorePage(s, x);
    assert |t.pages| == |s.pages| + 1 && |t.fetching| == |s.fetching| - 1 && |t.stored| == |s.stored| + 1;
  }

  lemma StorePageKeeps(cfg: Config, start: Url, s: State, x: Item)
    requires Inv(cfg, start, s) && x in s.fetching
    ensures Inv(cfg, start, StorePage(s, x))
  {
    assert x !in s.stored;
    hide QueueInv, TakenInv, PhaseInv, DepthInv, BudgetInv, DoneInv, Active;
    StoreKeepsTaken(s, x);
    StoreKeepsPhases(s, x);
    StoreKeepsDepth(cfg.maxDepth, start, s.log, s.pages, x.url, Page(x.depth, x.parent));
    StoreKeepsBudget(cfg, s, x);
  }

  lemma CloseKeepsPhases(s: State, x: Item, failed: nat)
    requires PhaseInv(s.fetching, s.stored, s.closing, s.pages) && (x in s.fetching || x in s.stored)
    ensures var t := Close(s, x, failed);
            && PhaseInv(t.fetching, t.stored, t.closing, t.pages)
            && Active(t) == Active(s)
            && |t.fetching| + |t.stored| + 1 == |s.fetching| + |s.stored|
            && |t.fetching| <= |s.fetching|
            && Active(t) > 0
  {
    assert x in Close(s, x, failed).closing;
  }

  lemma CloseKeepsTaken(s: State, x: Item, failed: nat)
    requires TakenInv(s.log, Dispatched(s), s.fetching, s.stored, s.closing, s.pages)
    requires x in s.fetching || x in s.stored
    ensures var t := Close(s, x, failed);
            TakenInv(t.log, Dispatched(t), t.fetching, t.stored, t.closing, t.pages)
  {
    var t, n := Close(s, x, failed), Dispatched(s);
    assert Taken(s.log, n, x);
    AllTakenWithin(s.log, n, s.fetching, x, t.fetching);
    AllTakenWithin(s.log, n, s.stored, x, t.stored);
    AllTakenWithin(s.log, n, s.closing, x, t.closing);
  }

  lemma CloseKeepsBudget(cfg: Config, s: State, x: Item, failed: nat)
    requires BudgetInv(cfg, s) && DoneInv(cfg, s) && failed <= 1 && Active(s) > 0
    requires var t := Close(s, x, failed);
             && Active(t) == Active(s) && |t.fetching| <= |s.fetching|
             && |t.fetching| + |t.stored| + 1 == |s.fetching| + |s.stored|
    ensures BudgetInv(cfg, Close(s, x, failed)) && DoneInv(cfg, Close(s, x, failed))
  {
  }

  lemma CloseKeeps(cfg: Config, start: Url, s: State, x: Item, failed: nat)
    requires CoreInv(cfg, start, s) && (x in s.fetching || x in s.stored) && failed <= 1
    ensures Inv(cfg, start, Close(s, x, failed))
  {
    hide TakenInv, PhaseInv, QueueInv, DepthInv, BudgetInv, DoneInv, Active;
    CloseKeepsPhases(s, x, failed);
    CloseKeepsTaken(s, x, failed);
    CloseKeepsBudget(cfg, s, x, failed);
  }

  lemma SettleKeeps(cfg: Config, start: Url, s: State, x: Item)
    requires GoodConfig(cfg) && Inv(cfg, start, s) && x in s.closing
    ensures Inv(cfg, start, Apply(cfg, s, Settled(x)))
  {
    LeaveKeeps(cfg, start, s, x);
    DispatchKeeps(cfg, start, s.(closing := s.closing - {x}));
  }

  lemma DiscoverKeeps(cfg: Config, start: Url, s: State, x: Item, links: seq<Url>)
    requires CoreInv(cfg, start, s) && x in s.stored
    ensures CoreInv(cfg, start, Discover(cfg, s, x, links))
    ensures var t := Discover(cfg, s, x, links);
            t.fetching == s.fetching && t.stored == s.stored && t.closing == s.closing
  {
    if x.depth < cfg.maxDepth && |s.pages| < cfg.maxPages {
      PushLinksKeeps(cfg, start, s, links, x);
    }
  }

  lemma ReadKeeps(cfg: Config, start: Url, s: State, x: Item, links: seq<Url>)
    requires CoreInv(cfg, start, s) && x in s.stored
    ensures Inv(cfg, start, Close(Discover(cfg, s, x, links), x, 0))
  {
    hide CoreInv, Inv, Discover;
    DiscoverKeeps(cfg, start, s, x, links);
    CloseKeeps(cfg, start, Discover(cfg, s, x, links), x, 0);
  }

  lemma AbortKeeps(cfg: Config, start: Url, s: State)
    requires Inv(cfg, start, s)
    ensures Inv(cfg, start, s.(aborted := true))
  {
    hide QueueInv, TakenInv, PhaseInv, DepthInv;
  }

  lemma ApplyKeeps(cfg: Config, start: Url, s: State, e: Event)
    requires GoodConfig(cfg) && Inv(cfg, start, s) && Enabled(s, e)
    ensures Inv(cfg, start, Apply(cfg, s, e))
  {
    hide CoreInv, Close, Discover, StorePage, Dispatch, Active;
    match e
    case Fetched(x) => StorePageKeeps(cfg, start, s, x);
    case FetchFailed(x) => CloseKeeps(cfg, start, s, x, 1);
    case CallbackOk(x, links) => ReadKeeps(cfg, start, s, x, links);
    case CallbackThrew(x) => CloseKeeps(cfg, start, s, x, 1);
    case Settled(x) => SettleKeeps(cfg, start, s, x);
    case Abort => AbortKeeps(cfg, start, s);
  }

  /** Only a settling worker changes how many are active. */
  lemma ActiveStays(cfg: Config, start: Url, s: State, e: Event)
    requires Inv(cfg, start, s) && Enabled(s, e) && !e.Settled?
    ensures Active(Apply(cfg, s, e)) == Active(s)
  {
    hide QueueInv, TakenInv, PhaseInv, DepthInv, BudgetInv, DoneInv, Dispatch, Active, Close, Discover, StorePage;
    match e
    case Fetched(x) => StoreStays(s, x);
    case FetchFailed(x) => CloseKeepsPhases(s, x, 1);
    case CallbackOk(x, links) => ReadStays(cfg, start, s, x, links);
    case CallbackThrew(x) => CloseKeepsPhases(s, x, 1);
    case Abort => AbortStays(s);
  }

  lemma StoreStays(s: State, x: Item)
    requires PhaseInv(s.fetching, s.stored, s.closing, s.pages) && x in s.fetching
    ensures Active(StorePage(s, x)) == Active(s)
  {
  }

  lemma AbortStays(s: State)
    ensures Active(s.(aborted := true)) == Active(s)
  {
  }

  lemma ReadStays(cfg: Config, start: Url, s: State, x: Item, links: seq<Url>)
    requires CoreInv(cfg, start, s) && x in s.stored
    ensures Active(Close(Discover(cfg, s, x, links), x, 0)) == Active(s)
  {
    hide QueueInv, TakenInv, PhaseInv, DepthInv, BudgetInv, DoneInv, Discover, Close;
    DiscoverKeeps(cfg, start, s, x, links);
    CloseKeepsPhases(Discover(cfg, s, x, links), x, 0);
  }

  lemma QueuedStartIsCore(cfg: Config, start: Url, aborted: bool)
    requires GoodConfig(cfg)
    ensures CoreInv(cfg, start, Push(Fresh(aborted), Item(start, 0, None)))
  {
    var s := Push(Fresh(aborted), Item(start, 0, None));
    assert s.log[0] == Item(start, 0, None);
    assert Queued(s.log, start);
  }

  /** A settling worker leaves a state that is ready for the next dispatch. */
  lemma LeaveKeeps(cfg: Config, start: Url, s: State, x: Item)
    requires CoreInv(cfg, start, s) && x in s.closing
    ensures var t := s.(closing := s.closing - {x});
            CoreInv(cfg, start, t) && Active(t) == Active(s) - 1
  {
    hide QueueInv, DepthInv, PageInv;
    assert Taken(s.log, Dispatched(s), x);
    AllTakenWithin(s.log, Dispatched(s), s.closing, x, s.closing - {x});
  }

  lemma StartKeeps(cfg: Config, start: Url, aborted: bool)
    requires GoodConfig(cfg)
    ensures Inv(cfg, start, Start(cfg, start, aborted))
  {
    QueuedStartIsCore(cfg, start, aborted);
    DispatchKeeps(cfg, start, Push(Fresh(aborted), Item(start, 0, None)));
  }

  lemma {:induction false} ExecKeeps(cfg: Config, start: Url, s: State, es: seq<Event>)
    requires GoodConfig(cfg) && Inv(cfg, start, s) && Possible(cfg, s, es)
    ensures Inv(cfg, start, Exec(cfg, s, es))
    decreases |es|
  {
    if es != [] {
      ApplyKeeps(cfg, start, s, es[0]);
      ExecKeeps(cfg, start, Apply(cfg, s, es[0]), es[1..]);
    }
  }

  // ---- every crawl ends ----

  /** Work that is left: each unit of work moves on by a step that makes this smaller. */
  ghost function Measure(cfg: Config, s: State): int {
    4 * (3 * cfg.maxPages - |s.enqueued|) + 4 * |s.pending| + 3 * |s.fetching| + 2 * |s.stored| + |s.closing|
    + (if s.aborted then 0 else 1)
  }

  lemma BeginShrinks(cfg: Config, s: State)
    requires |s.pending| > 0
    requires s.pending[0] !in s.fetching && s.pending[0] !in s.stored && s.pending[0] !in s.closing
    ensures Measure(cfg, DispatchOne(cfg, s)) <= Measure(cfg, s)
  {
    var t, x := DispatchOne(cfg, s), s.pending[0];
    assert |s.fetching + {x}| == |s.fetching| + 1 && |s.closing + {x}| == |s.closing| + 1;
  }

  lemma {:induction false} DispatchLoopShrinks(cfg: Config, start: Url, s: State)
    requires CoreInv(cfg, start, s) && !s.isDone
    ensures Measure(cfg, DispatchLoop(cfg, s)) <= Measure(cfg, s)
    decreases |s.pending|
  {
    if CanDispatch(cfg, s) {
      BeginKeeps(cfg, start, s);
      FrontIsIdle(s);
      hide CoreInv, Measure, Begin, Active;
      BeginShrinks(cfg, s);
      DispatchLoopShrinks(cfg, start, DispatchOne(cfg, s));
    }
  }

  lemma {:induction false} PushLinksMeasure(cfg: Config, s: State, links: seq<Url>, from: Item)
    ensures Measure(cfg, PushLinks(cfg, s, links, from)) == Measure(cfg, s)
    decreases |links|
  {
    if links != [] {
      PushLinksMeasure(cfg, PushLink(cfg, s, links[0], from), links[1..], from);
    }
  }

  lemma DiscoverShrinks(cfg: Config, start: Url, s: State, x: Item, links: seq<Url>)
    requires CoreInv(cfg, start, s) && x in s.stored
    ensures Measure(cfg, Close(Discover(cfg, s, x, links), x, 0)) < Measure(cfg, s)
  {
    var t := Discover(cfg, s, x, links);
    PushLinksMeasure(cfg, s, links, x);
    DiscoverKeeps(cfg, start, s, x, links);
    CloseKeepsPhases(t, x, 0);
    assert x !in t.fetching && x !in t.closing;
  }

  lemma SettleShrinks(cfg: Config, start: Url, s: State, x: Item)
    requires CoreInv(cfg, start, s) && x in s.closing
    ensures Measure(cfg, Apply(cfg, s, Settled(x))) < Measure(cfg, s)
  {
    hide CoreInv, DispatchLoop, Active;
    var t := s.(closing := s.closing - {x});
    assert Measure(cfg, t) < Measure(cfg, s);
    if !t.isDone && !t.aborted {
      LeaveKeeps(cfg, start, s, x);
      DispatchLoopShrinks(cfg, start, t);
    }
    assert Measure(cfg, Dispatch(cfg, t)) <= Measure(cfg, t);
  }

  lemma ApplyShrinks(cfg: Config, start: Url, s: State, e: Event)
    requires GoodConfig(cfg) && Inv(cfg, start, s) && Enabled(s, e)
    ensures Measure(cfg, Apply(cfg, s, e)) < Measure(cfg, s)
  {
    match e
    case Fetched(x) =>
    case FetchFailed(x) => CloseKeepsPhases(s, x, 1);
    case CallbackOk(x, links) => DiscoverShrinks(cfg, start, s, x, links);
    case CallbackThrew(x) => CloseKeepsPhases(s, x, 1);
    case Settled(x) => SettleShrinks(cfg, start, s, x);
    case Abort =>
  }

  lemma {:induction false} RunsAreBounded(cfg: Config, start: Url, s: State, es: seq<Event>)
    requires GoodConfig(cfg) && Inv(cfg, start, s) && Possible(cfg, s, es)
    ensures |es| <= Measure(cfg, s)
    decreases |es|
  {
    if es != [] {
      ApplyKeeps(cfg, start, s, es[0]);
      ApplyShrinks(cfg, start, s, es[0]);
      RunsAreBounded(cfg, start, Apply(cfg, s, es[0]), es[1..]);
    }
  }

  /** No crawl takes more than 12 steps per budgeted page, and one for an abort. */
  lemma CrawlIsBounded(cfg: Config, start: Url, aborted: bool, es: seq<Event>)
    requires GoodConfig(cfg) && Possible(cfg, Start(cfg, start, aborted), es)
    ensures |es| <= 12 * cfg.maxPages + 1
  {
    hide Inv, CoreInv;
    StartKeeps(cfg, start, aborted);
    RunsAreBounded(cfg, start, Start(cfg, start, aborted), es);
    var s := Push(Fresh(aborted), Item(start, 0, None));
    QueuedStartIsCore(cfg, start, aborted);
    if !aborted {
      DispatchLoopShrinks(cfg, start, s);
    }
  }

  /** A crawl in which no worker can move any more has resolved its promise. */
  lemma StuckMeansDone(cfg: Config, start: Url, aborted: bool, es: seq<Event>)
    requires GoodConfig(cfg) && Possible(cfg, Start(cfg, start, aborted), es)
    requires forall e :: Enabled(Exec(cfg, Start(cfg, start, aborted), es), e) ==> e.Abort?
    ensures Exec(cfg, Start(cfg, start, aborted), es).isDone
  {
    StartKeeps(cfg, start, aborted);
    ExecKeeps(cfg, start, Start(cfg, start, aborted), es);
    var s := Exec(cfg, Start(cfg, start, aborted), es);
    if !s.isDone {
      if x :| x in s.fetching {
        assert Enabled(s, FetchFailed(x));
      } else if x :| x in s.stored {
        assert Enabled(s, CallbackThrew(x));
      } else {
        var x :| x in s.closing;
        assert Enabled(s, Settled(x));
      }
    }
  }

  // ---- no URL is fetched twice ----

  predicate IsFetchOf(e: Event, u: Url) {
    match e
    case Fetched(x) => x.url == u
    case FetchFailed(x) => x.url == u
    case _ => false
  }

  /** `u` was dispatched and no worker waits for its fetch. */
  ghost predicate Spent(s: State, x: Item) {
    Taken(s.log, Dispatched(s), x) && x !in s.fetching
  }

  lemma {:induction false} DispatchLoopKeepsSpent(cfg: Config, start: Url, s: State, x: Item)
    requires CoreInv(cfg, start, s) && !s.isDone && Spent(s, x)
    ensures Spent(DispatchLoop(cfg, s), x)
    decreases |s.pending|
  {
    if CanDispatch(cfg, s) {
      BeginKeeps(cfg, start, s);
      FrontIsNew(s.log, s.pending, s.enqueued, x);
      TakenGrows(s.log, Dispatched(s), x, s.log, Dispatched(s) + 1);
      DispatchLoopKeepsSpent(cfg, start, DispatchOne(cfg, s), x);
    }
  }

  lemma ApplyKeepsSpent(cfg: Config, start: Url, s: State, e: Event, x: Item)
    requires GoodConfig(cfg) && Inv(cfg, start, s) && Enabled(s, e) && Spent(s, x)
    ensures Spent(Apply(cfg, s, e), x)
  {
    match e
    case CallbackOk(y, links) =>
      DiscoverKeeps(cfg, start, s, y, links);
      var t := Discover(cfg, s, y, links);
      DiscoverExtends(cfg, s, y, links);
      TakenGrows(s.log, Dispatched(s), x, t.log, Dispatched(t));
    case Settled(y) =>
      var t := s.(closing := s.closing - {y});
      if !t.isDone && !t.aborted {
        LeaveKeeps(cfg, start, s, y);
        DispatchLoopKeepsSpent(cfg, start, t, x);
      }
    case _ =>
  }

  lemma {:induction false} PushLinksExtends(cfg: Config, s: State, links: seq<Url>, from: Item)
    ensures var t := PushLinks(cfg, s, links, from);
            && s.log <= t.log
            && |t.log| - |t.pending| == |s.log| - |s.pending|
            && t == s.(enqueued := t.enqueued, pending := t.pending, log := t.log)
    decreases |links|
  {
    if links != [] {
      PushLinksExtends(cfg, PushLink(cfg, s, links[0], from), links[1..], from);
    }
  }

  /** Every link of the page is queued unless the cap is met, and nothing else is. */
  lemma {:induction false} PushLinksFinds(cfg: Config, s: State, links: seq<Url>, from: Item)
    ensures var t := PushLinks(cfg, s, links, from);
            && s.enqueued <= t.enqueued
            && (forall l :: l in t.enqueued ==> l in s.enqueued || l in links)
            && (forall l :: l in links ==> l in t.enqueued || |t.enqueued| >= 3 * cfg.maxPages)
    decreases |links|
  {
    if links != [] {
      var mid := PushLink(cfg, s, links[0], from);
      var t := PushLinks(cfg, mid, links[1..], from);
      PushLinksFinds(cfg, mid, links[1..], from);
      SubsetSize(mid.enqueued, t.enqueued);
      forall l | l in links
        ensures l in t.enqueued || |t.enqueued| >= 3 * cfg.maxPages
      {
        assert l == links[0] || l in links[1..];
      }
    }
  }

  lemma DiscoverExtends(cfg: Config, s: State, x: Item, links: seq<Url>)
    ensures var t := Discover(cfg, s, x, links);
            && s.log <= t.log
            && |t.log| - |t.pending| == |s.log| - |s.pending|
            && t == s.(enqueued := t.enqueued, pending := t.pending, log := t.log)
  {
    PushLinksExtends(cfg, s, links, x);
  }

  lemma SpentIsNotNext(cfg: Config, start: Url, s: State, e: Event, x: Item)
    requires Inv(cfg, start, s) && Enabled(s, e) && Spent(s, x)
    ensures !IsFetchOf(e, x.url)
  {
    hide DepthInv, BudgetInv, PhaseInv;
    if IsFetchOf(e, x.url) {
      assert Taken(s.log, Dispatched(s), e.item);
      TakenUnique(s.log, s.pending, s.enqueued, Dispatched(s), x, e.item);
    }
  }

  lemma {:induction false} SpentIsNotFetched(cfg: Config, start: Url, s: State, es: seq<Event>, x: Item)
    requires GoodConfig(cfg) && Inv(cfg, start, s) && Possible(cfg, s, es) && Spent(s, x)
    ensures forall j :: 0 <= j < |es| ==> !IsFetchOf(es[j], x.url)
    decreases |es|
  {
    hide Inv, Spent, Apply, Enabled, IsFetchOf;
    if es != [] {
      SpentIsNotNext(cfg, start, s, es[0], x);
      ApplyKeeps(cfg, start, s, es[0]);
      ApplyKeepsSpent(cfg, start, s, es[0], x);
      SpentIsNotFetched(cfg, start, Apply(cfg, s, es[0]), es[1..], x);
      forall j | 0 < j < |es|
        ensures !IsFetchOf(es[j], x.url)
      {
        assert es[j] == es[1..][j - 1];
      }
    }
  }

  lemma FetchSpends(cfg: Config, start: Url, s: State, e: Event, u: Url)
    requires Inv(cfg, start, s) && Enabled(s, e) && IsFetchOf(e, u)
    ensures e.item.url == u && Spent(Apply(cfg, s, e), e.item)
  {
    assert Taken(s.log, Dispatched(s), e.item);
  }

  lemma FirstFetchIsLast(cfg: Config, start: Url, s: State, e: Event, rest: seq<Event>, j: nat, u: Url)
    requires GoodConfig(cfg) && Inv(cfg, start, s) && Enabled(s, e) && Possible(cfg, Apply(cfg, s, e), rest)
    requires IsFetchOf(e, u) && j < |rest|
    ensures !IsFetchOf(rest[j], u)
  {
    FetchSpends(cfg, start, s, e, u);
    ApplyKeeps(cfg, start, s, e);
    SpentIsNotFetched(cfg, start, Apply(cfg, s, e), rest, e.item);
  }

  lemma {:induction false} PossibleSplits(cfg: Config, s: State, es: seq<Event>, i: nat)
    requires Possible(cfg, s, es) && i <= |es|
    ensures Possible(cfg, s, es[..i]) && Possible(cfg, Exec(cfg, s, es[..i]), es[i..])
    decreases i
  {
    if i > 0 {
      PossibleSplits(cfg, Apply(cfg, s, es[0]), es[1..], i - 1);
      assert es[..i][1..] == es[1..][..i - 1];
      assert es[i..] == es[1..][i - 1..];
    } else {
      assert es[i..] == es;
    }
  }

  lemma NoUrlIsFetchedTwice(cfg: Config, start: Url, aborted: bool, es: seq<Event>, i: nat, j: nat, u: Url)
    requires GoodConfig(cfg) && Possible(cfg, Start(cfg, start, aborted), es) && i < j < |es|
    ensures !(IsFetchOf(es[i], u) && IsFetchOf(es[j], u))
  {
    hide Inv, Start, Apply, Exec, IsFetchOf, Enabled;
    if IsFetchOf(es[i], u) {
      var s := Start(cfg, start, aborted);
      StartKeeps(cfg, start, aborted);
      PossibleSplits(cfg, s, es, i);
      ExecKeeps(cfg, start, s, es[..i]);
      var rest := es[i..][1..];
      assert es[j] == rest[j - i - 1];
      FirstFetchIsLast(cfg, start, Exec(cfg, s, es[..i]), es[i], rest, j - i - 1, u);
    }
  }

  // ---- the main statement ----

  ghost function Urls(xs: seq<Item>): set<Url> {
    set i | 0 <= i < |xs| :: xs[i].url
  }

  ghost function UrlSet(xs: set<Item>): set<Url> {
    set x | x in xs :: x.url
  }

  /** What a state promises its reader. */
  ghost predicate IsSafe(cfg: Config, start: Url, s: State) {
    && |s.pages| + |s.fetching| <= cfg.maxPages
    && Active(s) <= cfg.concurrencyLimit
    && |s.enqueued| <= 3 * cfg.maxPages
    && (|s.pages| >= cfg.maxPages ==> s.fetching == {})
    && Urls(s.pending) !! UrlSet(s.fetching + s.stored + s.closing)
    && Urls(s.pending) <= s.enqueued
    && UrlSet(s.fetching + s.stored + s.closing) <= s.enqueued
    && (forall u :: u in s.pages ==>
         && u in s.enqueued
         && s.pages[u].depth <= cfg.maxDepth
         && (u == start ==> s.pages[u] == Page(0, None))
         && (u != start ==> ParentOk(s.pages, Item(u, s.pages[u].depth, s.pages[u].parent))))
  }

  lemma CrawlIsSafe(cfg: Config, start: Url, aborted: bool, es: seq<Event>)
    requires GoodConfig(cfg) && Possible(cfg, Start(cfg, start, aborted), es)
    ensures IsSafe(cfg, start, Exec(cfg, Start(cfg, start, aborted), es))
  {
    hide Inv, Exec, Possible, Start, IsSafe;
    StartKeeps(cfg, start, aborted);
    ExecKeeps(cfg, start, Start(cfg, start, aborted), es);
    InvIsSafe(cfg, start, Exec(cfg, Start(cfg, start, aborted), es));
  }

  lemma InvIsSafe(cfg: Config, start: Url, s: State)
    requires Inv(cfg, start, s)
    ensures IsSafe(cfg, start, s)
  {
    hide QueueInv, TakenInv, DepthInv, PhaseInv, ParentOk, Urls, UrlSet;
    QueueIsApart(s);
    forall u | u in s.pages
      ensures u in s.enqueued && s.pages[u].depth <= cfg.maxDepth
      ensures u == start ==> s.pages[u] == Page(0, None)
      ensures u != start ==> ParentOk(s.pages, Item(u, s.pages[u].depth, s.pages[u].parent))
    {
      PageIsTaken(s, u);
      PageHangsBelowParent(cfg, start, s, u);
    }
    assert |s.enqueued| == |s.log|;
  }

  lemma PageIsTaken(s: State, u: Url)
    requires TakenInv(s.log, Dispatched(s), s.fetching, s.stored, s.closing, s.pages) && u in s.pages
    ensures PageTaken(s.log, Dispatched(s), s.pages, u)
  {
  }

  lemma QueueIsApart(s: State)
    requires QueueInv(s.log, s.pending, s.enqueued)
    requires TakenInv(s.log, Dispatched(s), s.fetching, s.stored, s.closing, s.pages)
    ensures Urls(s.pending) !! UrlSet(s.fetching + s.stored + s.closing)
    ensures Urls(s.pending) <= s.enqueued
    ensures UrlSet(s.fetching + s.stored + s.closing) <= s.enqueued
    ensures |s.enqueued| == |s.log|
  {
    var n := Dispatched(s);
    forall x | x in s.fetching + s.stored + s.closing
      ensures x.url in s.enqueued && x.url !in Urls(s.pending)
    {
      assert Taken(s.log, n, x);
      WorkerNotPending(s, x);
    }
    forall i | 0 <= i < |s.pending|
      ensures s.pending[i].url in s.enqueued
    {
      assert s.pending[i] == s.log[n + i];
    }
    hide TakenInv, PageInv, AllTaken;
  }

  lemma WorkerNotPending(s: State, x: Item)
    requires QueueInv(s.log, s.pending, s.enqueued) && Taken(s.log, Dispatched(s), x)
    ensures x.url in s.enqueued && x.url !in Urls(s.pending)
  {
    var i :| 0 <= i < Dispatched(s) && i < |s.log| && s.log[i] == x;
    forall j | 0 <= j < |s.pending|
      ensures s.pending[j].url != x.url
    {
      assert s.pending[j] == s.log[Dispatched(s) + j];
    }
  }

  lemma PageHangsBelowParent(cfg: Config, start: Url, s: State, u: Url)
    requires QueueInv(s.log, s.pending, s.enqueued) && DepthInv(cfg.maxDepth, start, s.log, s.pages)
    requires PageTaken(s.log, Dispatched(s), s.pages, u)
    ensures u in s.enqueued && s.pages[u].depth <= cfg.maxDepth
    ensures u == start ==> s.pages[u] == Page(0, None)
    ensures u != start ==> ParentOk(s.pages, Item(u, s.pages[u].depth, s.pages[u].parent))
  {
    var x := Item(u, s.pages[u].depth, s.pages[u].parent);
    var i :| 0 <= i < Dispatched(s) && i < |s.log| && s.log[i] == x;
    if i > 0 {
      assert ParentOk(s.pages, s.log[i]);
      assert s.log[0].url != s.log[i].url;
    }
  }
}
