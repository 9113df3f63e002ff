/**
 The crawler class itself: its fields, and one method for every uninterrupted stretch of its
 code. Each method is the step of the same name in the state machine, so whatever is proved
 of all runs of the machine holds of the objects.
 */
module Crawler {
  import opened Options
  import opened CrawlerModel
  import opened CrawlerSafety

  function Clamp(low: int, high: int, value: int): (r: int)
    requires low <= high
    ensures low <= r <= high
    ensures low <= value <= high ==> r == value
    ensures value < low ==> r == low
    ensures value > high ==> r == high
  {
    if value > high then high else if value < low then low else value
  }

  /** `r` is the allowed value nearest to the given or default one. */
  predicate IsNearest(given: Option<int>, default: int, low: int, high: int, r: int) {
    var value := if given.Some? then given.value else default;
    low <= r <= high && (value <= low ==> r == low) && (value >= high ==> r == high) && (low <= value <= high ==> r == value)
  }

  class BoundedCrawler {
    const cfg: Config
    var pages: map<Url, Page>
    var pending: seq<Item>
    var enqueued: set<Url>
    var activeWorkers: int
    var failures: nat
    var isDone: bool
    var aborted: bool // the abort signal

    // Where the workers' promises stand, and the history of the queue.
    ghost var fetching: set<Item>
    ghost var stored: set<Item>
    ghost var closing: set<Item>
    ghost var log: seq<Item>
    ghost var start: Url

    ghost function Model(): State
      reads this
    {
      State(pages, pending, enqueued, fetching, stored, closing, failures, aborted, isDone, log)
    }

    /** The state of a crawl between two events. */
    ghost predicate Valid()
      reads this
    {
      GoodConfig(cfg) && Inv(cfg, start, Model()) && activeWorkers == Active(Model())
    }

    /** Absent options take their defaults; given ones are brought to the nearest allowed value. */
    constructor (concurrencyLimit: Option<int>, maxPages: Option<int>, maxDepth: Option<int>,
                 allowed: Url -> bool, aborted: bool)
      ensures GoodConfig(cfg) && Model() == Fresh(aborted) && activeWorkers == 0 && cfg.allowed == allowed
      ensures IsNearest(concurrencyLimit, 4, 1, 10, cfg.concurrencyLimit)
      ensures IsNearest(maxPages, 10, 1, 50, cfg.maxPages)
      ensures IsNearest(maxDepth, 2, 0, 5, cfg.maxDepth)
    {
      cfg := Config(
        Clamp(1, 10, if concurrencyLimit.Some? then concurrencyLimit.value else 4),
        Clamp(1, 50, if maxPages.Some? then maxPages.value else 10),
        Clamp(0, 5, if maxDepth.Some? then maxDepth.value else 2),
        allowed);
      this.aborted := aborted;
      pages, pending, enqueued, activeWorkers, failures, isDone := map[], [], {}, 0, 0, false;
      fetching, stored, closing, log, start := {}, {}, {}, [], "";
    }

    /** Starts a crawl on a fresh object. */
    method Crawl(startUrl: Url)
      requires GoodConfig(cfg) && Model() == Fresh(aborted) && activeWorkers == 0
      modifies this
      ensures start == startUrl && Valid()
      ensures Model() == Start(cfg, startUrl, old(aborted)) && failures == 0
    {
      hide Inv, CoreInv, DispatchLoop;
      QueuedStartIsCore(cfg, startUrl, aborted);
      var item := Item(startUrl, 0, None);
      pending := pending + [item];
      enqueued := enqueued + {startUrl};
      log := log + [item];
      start := startUrl;
      RunDispatch();
    }

    method RunDispatch()
      requires GoodConfig(cfg) && CoreInv(cfg, start, Model()) && activeWorkers == Active(Model())
      modifies this
      ensures start == old(start) && Valid()
      ensures Model() == Dispatch(cfg, old(Model())) && failures == old(failures)
    {
      hide Inv, CoreInv;
      DispatchKeeps(cfg, start, Model());
      if isDone || aborted {
        RunCheckFinished();
        return;
      }
      ghost var before := Model();
      while activeWorkers < cfg.concurrencyLimit && |pending| > 0 && |pages| + activeWorkers < cfg.maxPages
        invariant CoreInv(cfg, start, Model()) && activeWorkers == Active(Model())
        invariant start == old(start) && !isDone && failures == old(failures)
        invariant DispatchLoop(cfg, Model()) == DispatchLoop(cfg, before)
        decreases |pending|
      {
        RunDispatchOne();
      }
      RunCheckFinished();
    }

    /** Takes the front item off the queue and runs processItem up to its first await. */
    method RunDispatchOne()
      requires CoreInv(cfg, start, Model()) && activeWorkers == Active(Model())
      requires CanDispatch(cfg, Model()) && !isDone
      modifies this
      ensures Model() == DispatchOne(cfg, old(Model())) && failures == old(failures)
      ensures CoreInv(cfg, start, Model()) && activeWorkers == Active(Model()) && start == old(start) && !isDone
    {
      hide CoreInv, DispatchLoop, Active;
      ghost var next := DispatchOne(cfg, Model());
      BeginKeeps(cfg, start, Model());
      var item := pending[0];
      pending := pending[1..];
      activeWorkers := activeWorkers + 1;
      if aborted || item.url in pages || item.depth > cfg.maxDepth || !cfg.allowed(item.url) {
        closing := closing + {item};
      } else {
        fetching := fetching + {item};
      }
      assert Model() == next;
    }

    method RunCheckFinished()
      requires activeWorkers == Active(Model())
      modifies this`isDone
      ensures Model() == CheckFinished(cfg, old(Model()))
    {
      if !isDone && (|pages| >= cfg.maxPages || (|pending| == 0 && activeWorkers == 0) || aborted) {
        isDone := true;
      }
    }

    /** The fetch of `item` answered with a page. */
    method OnFetched(item: Item)
      requires Valid() && item in fetching
      modifies this
      ensures Valid() && start == old(start)
      ensures Model() == Apply(cfg, old(Model()), Fetched(item)) && failures == old(failures)
    {
      hide Inv, CoreInv;
      ghost var next := Apply(cfg, Model(), Fetched(item));
      ApplyKeeps(cfg, start, Model(), Fetched(item));
      ActiveStays(cfg, start, Model(), Fetched(item));
      pages := pages[item.url := Page(item.depth, item.parent)];
      fetching, stored := fetching - {item}, stored + {item};
      assert Model() == next;
    }

    /** The page callback returned; the links found on the page join the queue. */
    method OnPageProcessed(item: Item, links: seq<Url>)
      requires Valid() && item in stored
      modifies this
      ensures Valid() && start == old(start)
      ensures Model() == Apply(cfg, old(Model()), CallbackOk(item, links)) && failures == old(failures)
      ensures item.depth >= cfg.maxDepth || |pages| >= cfg.maxPages ==> enqueued == old(enqueued) && pending == old(pending)
      ensures pages == old(pages)
    {
      hide Inv, CoreInv, Active, Dispatch, PushLinks, DispatchLoop;
      ghost var next := Apply(cfg, Model(), CallbackOk(item, links));
      ApplyKeeps(cfg, start, Model(), CallbackOk(item, links));
      ActiveStays(cfg, start, Model(), CallbackOk(item, links));
      if item.depth < cfg.maxDepth && |pages| < cfg.maxPages {
        RunDiscover(item, links);
      }
      fetching, stored, closing := fetching - {item}, stored - {item}, closing + {item};
      assert Model() == next;
    }

    /** Queues every link that is new, as long as the frontier cap allows. */
    method RunDiscover(item: Item, links: seq<Url>)
      modifies `enqueued, `pending, `log
      ensures Model() == PushLinks(cfg, old(Model()), links, item)
    {
      ghost var before := Model();
      for i := 0 to |links|
        invariant PushLinks(cfg, Model(), links[i..], item) == PushLinks(cfg, before, links, item)
      {
        assert links[i..][1..] == links[i + 1..];
        var link := links[i];
        if link !in enqueued && |enqueued| < cfg.maxPages * 3 {
          enqueued := enqueued + {link};
          pending := pending + [Item(link, item.depth + 1, Some(item.url))];
          log := log + [Item(link, item.depth + 1, Some(item.url))];
        }
      }
    }

    /** The fetch or the page callback of `item` failed. */
    method OnError(item: Item)
      requires Valid() && (item in fetching || item in stored)
      modifies this
      ensures Valid() && start == old(start)
      ensures Model() == Apply(cfg, old(Model()),
                               if item in old(fetching) then FetchFailed(item) else CallbackThrew(item))
      ensures failures == old(failures) + 1 && pages == old(pages) && item in closing
    {
      hide Inv, CoreInv, Active, Dispatch, PushLinks;
      ghost var e := if item in fetching then FetchFailed(item) else CallbackThrew(item);
      ghost var next := Apply(cfg, Model(), e);
      ApplyKeeps(cfg, start, Model(), e);
      ActiveStays(cfg, start, Model(), e);
      failures := failures + 1;
      fetching, stored, closing := fetching - {item}, stored - {item}, closing + {item};
      assert Model() == next;
    }

    /** The promise of `item`'s worker settled. */
    method OnSettled(item: Item)
      requires Valid() && item in closing
      modifies this
      ensures Valid() && start == old(start)
      ensures Model() == Apply(cfg, old(Model()), Settled(item)) && failures == old(failures)
    {
      hide CoreInv;
      LeaveKeeps(cfg, start, Model(), item);
      activeWorkers := activeWorkers - 1;
      closing := closing - {item};
      RunDispatch();
    }
  }
}
