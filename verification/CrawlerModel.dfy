/**
 The bounded crawler as a state machine.

 One state holds the crawler's own fields and, for every worker, where its promise
 stands: waiting for the fetch, waiting for the page callback, or about to settle.
 An event is one uninterrupted stretch of the program between two awaits, so a list of
 events is one interleaving of the workers.
 */
module CrawlerModel {
  import opened Options

  type Url = string

  datatype Item = Item(url: Url, depth: nat, parent: Option<Url>)

  datatype Page = Page(depth: nat, parent: Option<Url>)

  /** The clamped options; `allowed` is the robots rule. */
  datatype Config = Config(concurrencyLimit: nat, maxPages: nat, maxDepth: nat, allowed: Url -> bool)

  predicate GoodConfig(cfg: Config) {
    1 <= cfg.concurrencyLimit && 1 <= cfg.maxPages
  }

  datatype State = State(
    pages: map<Url, Page>,
    pending: seq<Item>,
    enqueued: set<Url>,
    fetching: set<Item>, // workers waiting for the fetch
    stored: set<Item>,   // workers whose page is stored and whose callback runs
    closing: set<Item>,  // workers that are about to settle
    failures: nat,
    aborted: bool,
    isDone: bool,
    log: seq<Item>)      // history: every item ever queued, oldest first

  datatype Event =
    | Fetched(item: Item)
    | FetchFailed(item: Item)
    | CallbackOk(item: Item, links: seq<Url>)
    | CallbackThrew(item: Item)
    | Settled(item: Item)
    | Abort

  function Active(s: State): nat {
    |s.fetching| + |s.stored| + |s.closing|
  }

  function Dispatched(s: State): nat {
    if |s.pending| <= |s.log| then |s.log| - |s.pending| else 0
  }

  // ---- the program's steps ----

  /** The part of processItem that runs before its first await. */
  function Begin(cfg: Config, s: State, item: Item): State {
    if s.aborted || item.url in s.pages || item.depth > cfg.maxDepth || !cfg.allowed(item.url)
    then s.(closing := s.closing + {item})
    else s.(fetching := s.fetching + {item})
  }

  predicate CanDispatch(cfg: Config, s: State) {
    Active(s) < cfg.concurrencyLimit && |s.pending| > 0 && |s.pages| + Active(s) < cfg.maxPages
  }

  function DispatchOne(cfg: Config, s: State): State
    requires |s.pending| > 0
  {
    Begin(cfg, s.(pending := s.pending[1..]), s.pending[0])
  }

  function DispatchLoop(cfg: Config, s: State): State
    decreases |s.pending|
  {
    if CanDispatch(cfg, s) then DispatchLoop(cfg, DispatchOne(cfg, s)) else s
  }

  function CheckFinished(cfg: Config, s: State): State {
    if !s.isDone && (|s.pages| >= cfg.maxPages || (|s.pending| == 0 && Active(s) == 0) || s.aborted)
    then s.(isDone := true)
    else s
  }

  function Dispatch(cfg: Config, s: State): State {
    if s.isDone || s.aborted then CheckFinished(cfg, s) else CheckFinished(cfg, DispatchLoop(cfg, s))
  }

  function Push(s: State, item: Item): State {
    s.(enqueued := s.enqueued + {item.url}, pending := s.pending + [item], log := s.log + [item])
  }

  function PushLink(cfg: Config, s: State, link: Url, from: Item): State {
    if link !in s.enqueued && |s.enqueued| < cfg.maxPages * 3
    then Push(s, Item(link, from.depth + 1, Some(from.url)))
    else s
  }

  function PushLinks(cfg: Config, s: State, links: seq<Url>, from: Item): State
    decreases |links|
  {
    if links == [] then s else PushLinks(cfg, PushLink(cfg, s, links[0], from), links[1..], from)
  }

  function Fresh(aborted: bool): State {
    State(map[], [], {}, {}, {}, {}, 0, aborted, false, [])
  }

  function Start(cfg: Config, url: Url, aborted: bool): State {
    Dispatch(cfg, Push(Fresh(aborted), Item(url, 0, None)))
  }

  predicate Enabled(s: State, e: Event) {
    match e
    case Fetched(x) => x in s.fetching
    case FetchFailed(x) => x in s.fetching
    case CallbackOk(x, _) => x in s.stored
    case CallbackThrew(x) => x in s.stored
    case Settled(x) => x in s.closing
    case Abort => !s.aborted
  }

  function StorePage(s: State, x: Item): State {
    s.(pages := s.pages[x.url := Page(x.depth, x.parent)], fetching := s.fetching - {x}, stored := s.stored + {x})
  }

  function Discover(cfg: Config, s: State, x: Item, links: seq<Url>): State {
    if x.depth < cfg.maxDepth && |s.pages| < cfg.maxPages then PushLinks(cfg, s, links, x) else s
  }

  function Close(s: State, x: Item, failed: nat): State {
    s.(fetching := s.fetching - {x}, stored := s.stored - {x}, closing := s.closing + {x},
       failures := s.failures + failed)
  }

  function Apply(cfg: Config, s: State, e: Event): State {
    match e
    case Fetched(x) => StorePage(s, x)
    case FetchFailed(x) => Close(s, x, 1)
    case CallbackOk(x, links) => Close(Discover(cfg, s, x, links), x, 0)
    case CallbackThrew(x) => Close(s, x, 1)
    case Settled(x) => Dispatch(cfg, s.(closing := s.closing - {x}))
    case Abort => s.(aborted := true)
  }

  /** The events can happen one after the other from `s`. */
  predicate Possible(cfg: Config, s: State, es: seq<Event>)
    decreases |es|
  {
    es == [] || (Enabled(s, es[0]) && Possible(cfg, Apply(cfg, s, es[0]), es[1..]))
  }

  function Exec(cfg: Config, s: State, es: seq<Event>): State
    decreases |es|
  {
    if es == [] then s else Exec(cfg, Apply(cfg, s, es[0]), es[1..])
  }

  // ---- what every state keeps ----

  /** The queue is the suffix of everything ever queued that is not yet dispatched; no URL is queued twice. */
  ghost predicate QueueInv(log: seq<Item>, pending: seq<Item>, enqueued: set<Url>) {
    && |pending| <= |log|
    && pending == log[|log| - |pending|..]
    && (forall i, j :: 0 <= i < j < |log| ==> log[i].url != log[j].url)
    && (forall i :: 0 <= i < |log| ==> log[i].url in enqueued)
    && (forall u {:trigger Queued(log, u)} :: u in enqueued ==> Queued(log, u))
    && |enqueued| == |log|
  }

  ghost predicate Queued(log: seq<Item>, u: Url) {
    exists i :: 0 <= i < |log| && log[i].url == u
  }

  /** `x` is one of the first `n` items ever queued. */
  ghost predicate Taken(log: seq<Item>, n: int, x: Item) {
    exists i :: 0 <= i < n && i < |log| && log[i] == x
  }

  ghost predicate AllTaken(log: seq<Item>, n: int, xs: set<Item>) {
    forall x {:trigger Taken(log, n, x)} :: x in xs ==> Taken(log, n, x)
  }

  /** A stored page belongs to a dispatched item and carries its depth and parent. */
  ghost predicate PageTaken(log: seq<Item>, n: int, pages: map<Url, Page>, u: Url) {
    u in pages && Taken(log, n, Item(u, pages[u].depth, pages[u].parent))
  }

  ghost predicate PageInv(log: seq<Item>, n: int, pages: map<Url, Page>) {
    forall u {:trigger PageTaken(log, n, pages, u)} :: u in pages ==> PageTaken(log, n, pages, u)
  }

  /** A worker is in exactly one phase; its page is stored exactly from the stored phase on. */
  ghost predicate PhaseInv(fetching: set<Item>, stored: set<Item>, closing: set<Item>, pages: map<Url, Page>) {
    && fetching !! stored
    && fetching !! closing
    && stored !! closing
    && (forall x :: x in fetching ==> x.url !in pages)
    && (forall x :: x in stored ==> x.url in pages && pages[x.url] == Page(x.depth, x.parent))
  }

  /** The item hangs below a stored page, one level deeper. */
  ghost predicate ParentOk(pages: map<Url, Page>, x: Item) {
    x.parent.Some? && x.parent.value in pages && pages[x.parent.value].depth + 1 == x.depth
  }

  ghost predicate DepthInv(maxDepth: nat, start: Url, log: seq<Item>, pages: map<Url, Page>) {
    && 0 < |log|
    && log[0] == Item(start, 0, None)
    && (forall i :: 0 <= i < |log| ==> log[i].depth <= maxDepth)
    && (forall i {:trigger ParentOk(pages, log[i])} :: 0 < i < |log| ==> ParentOk(pages, log[i]))
  }

  ghost predicate BudgetInv(cfg: Config, s: State) {
    && |s.pages| + |s.fetching| <= cfg.maxPages
    && Active(s) <= cfg.concurrencyLimit
    && |s.log| <= 3 * cfg.maxPages
    && s.failures + |s.pending| + |s.fetching| + |s.stored| <= |s.log|
  }

  ghost predicate DoneInv(cfg: Config, s: State) {
    s.isDone ==> |s.pages| >= cfg.maxPages || s.aborted || (s.pending == [] && Active(s) == 0)
  }

  /** Everything except that a worker is active while the crawl is not done. */
  ghost predicate CoreInv(cfg: Config, start: Url, s: State) {
    && QueueInv(s.log, s.pending, s.enqueued)
    && TakenInv(s.log, Dispatched(s), s.fetching, s.stored, s.closing, s.pages)
    && PhaseInv(s.fetching, s.stored, s.closing, s.pages)
    && DepthInv(cfg.maxDepth, start, s.log, s.pages)
    && BudgetInv(cfg, s)
    && DoneInv(cfg, s)
  }

  ghost predicate Inv(cfg: Config, start: Url, s: State) {
    CoreInv(cfg, start, s) && (s.isDone || Active(s) > 0)
  }

  // ---- preservation, part by part ----

  lemma TakenGrows(log: seq<Item>, n: int, x: Item, more: seq<Item>, m: int)
    requires Taken(log, n, x) && log <= more && n <= m
    ensures Taken(more, m, x)
  {
    var i :| 0 <= i < n && i < |log| && log[i] == x;
    assert more[i] == x;
  }

  /** Queueing and dispatching more keeps every dispatched item and page dispatched. */
  lemma AllTakenGrows(log: seq<Item>, n: int, xs: set<Item>, more: seq<Item>, m: int)
    requires AllTaken(log, n, xs) && log <= more && n <= m
    ensures AllTaken(more, m, xs)
  {
    forall x | x in xs
      ensures Taken(more, m, x)
    {
      TakenGrows(log, n, x, more, m);
    }
  }

  lemma PageInvGrows(log: seq<Item>, n: int, pages: map<Url, Page>, more: seq<Item>, m: int)
    requires PageInv(log, n, pages) && log <= more && n <= m
    ensures PageInv(more, m, pages)
  {
    forall u | u in pages
      ensures PageTaken(more, m, pages, u)
    {
      assert PageTaken(log, n, pages, u);
      TakenGrows(log, n, Item(u, pages[u].depth, pages[u].parent), more, m);
    }
  }

  /** The item at the front of the queue was never dispatched before. */
  lemma FrontIsNew(log: seq<Item>, pending: seq<Item>, enqueued: set<Url>, x: Item)
    requires QueueInv(log, pending, enqueued) && |pending| > 0 && Taken(log, |log| - |pending|, x)
    ensures x.url != pending[0].url
  {
    var i :| 0 <= i < |log| - |pending| && i < |log| && log[i] == x;
    assert pending[0] == log[|log| - |pending|];
  }

  lemma FrontIsTaken(log: seq<Item>, pending: seq<Item>, enqueued: set<Url>)
    requires QueueInv(log, pending, enqueued) && |pending| > 0
    ensures Taken(log, |log| - |pending| + 1, pending[0])
    ensures QueueInv(log, pending[1..], enqueued)
  {
    assert pending[0] == log[|log| - |pending|];
  }

  /** Dispatching the front item to either phase keeps what is said of the worker phases. */
  lemma BeginKeepsPhases(cfg: Config, s: State, x: Item)
    requires PhaseInv(s.fetching, s.stored, s.closing, s.pages)
    requires x !in s.fetching && x !in s.stored && x !in s.closing
    ensures var t := Begin(cfg, s, x);
            && PhaseInv(t.fetching, t.stored, t.closing, t.pages)
            && Active(t) == Active(s) + 1
            && |t.fetching| <= |s.fetching| + 1
            && t == s.(fetching := t.fetching, closing := t.closing)
            && t.fetching <= s.fetching + {x} && t.closing <= s.closing + {x}
  {
  }

  lemma FrontIsIdle(s: State)
    requires QueueInv(s.log, s.pending, s.enqueued) && |s.pending| > 0
    requires TakenInv(s.log, Dispatched(s), s.fetching, s.stored, s.closing, s.pages)
    ensures s.pending[0] !in s.fetching && s.pending[0] !in s.stored && s.pending[0] !in s.closing
  {
    var x := s.pending[0];
    if Taken(s.log, Dispatched(s), x) {
      FrontIsNew(s.log, s.pending, s.enqueued, x);
    }
  }

  lemma AllTakenWithin(log: seq<Item>, n: int, xs: set<Item>, x: Item, ys: set<Item>)
    requires AllTaken(log, n, xs) && Taken(log, n, x) && ys <= xs + {x}
    ensures AllTaken(log, n, ys)
  {
    forall y | y in ys
      ensures Taken(log, n, y)
    {
      assert y == x || Taken(log, n, y);
    }
  }

  ghost predicate TakenInv(log: seq<Item>, n: int, fetching: set<Item>, stored: set<Item>, closing: set<Item>,
                           pages: map<Url, Page>) {
    AllTaken(log, n, fetching) && AllTaken(log, n, stored) && AllTaken(log, n, closing) && PageInv(log, n, pages)
  }

  lemma TakenInvGrows(log: seq<Item>, n: int, fetching: set<Item>, stored: set<Item>, closing: set<Item>,
                      pages: map<Url, Page>, more: seq<Item>, m: int)
    requires TakenInv(log, n, fetching, stored, closing, pages) && log <= more && n <= m
    ensures TakenInv(more, m, fetching, stored, closing, pages)
  {
    AllTakenGrows(log, n, fetching, more, m);
    AllTakenGrows(log, n, stored, more, m);
    AllTakenGrows(log, n, closing, more, m);
    PageInvGrows(log, n, pages, more, m);
  }

  lemma BeginKeepsTaken(s: State, t: State)
    requires QueueInv(s.log, s.pending, s.enqueued) && |s.pending| > 0
    requires TakenInv(s.log, Dispatched(s), s.fetching, s.stored, s.closing, s.pages)
    requires t.log == s.log && t.pending == s.pending[1..] && t.stored == s.stored && t.pages == s.pages
    requires t.fetching <= s.fetching + {s.pending[0]} && t.closing <= s.closing + {s.pending[0]}
    ensures TakenInv(t.log, Dispatched(t), t.fetching, t.stored, t.closing, t.pages)
  {
    var n := Dispatched(s);
    FrontIsTaken(s.log, s.pending, s.enqueued);
    TakenInvGrows(s.log, n, s.fetching, s.stored, s.closing, s.pages, s.log, n + 1);
    AllTakenWithin(s.log, n + 1, s.fetching, s.pending[0], t.fetching);
    AllTakenWithin(s.log, n + 1, s.closing, s.pending[0], t.closing);
  }

  lemma BeginKeeps(cfg: Config, start: Url, s: State)
    requires CoreInv(cfg, start, s) && CanDispatch(cfg, s) && !s.isDone
    ensures CoreInv(cfg, start, DispatchOne(cfg, s))
    ensures Active(DispatchOne(cfg, s)) == Active(s) + 1
    ensures !DispatchOne(cfg, s).isDone
  {
    FrontIsTaken(s.log, s.pending, s.enqueued);
    FrontIsIdle(s);
    BeginKeepsPhases(cfg, s.(pending := s.pending[1..]), s.pending[0]);
    BeginKeepsTaken(s, DispatchOne(cfg, s));
  }

  lemma {:induction false} DispatchLoopKeeps(cfg: Config, start: Url, s: State)
    requires CoreInv(cfg, start, s) && !s.isDone
    ensures CoreInv(cfg, start, DispatchLoop(cfg, s))
    ensures !CanDispatch(cfg, DispatchLoop(cfg, s))
    ensures !DispatchLoop(cfg, s).isDone
    decreases |s.pending|
  {
    if CanDispatch(cfg, s) {
      BeginKeeps(cfg, start, s);
      DispatchLoopKeeps(cfg, start, DispatchOne(cfg, s));
    }
  }

  lemma CheckFinishedKeeps(cfg: Config, start: Url, s: State)
    requires GoodConfig(cfg) && CoreInv(cfg, start, s) && (s.isDone || s.aborted || !CanDispatch(cfg, s))
    ensures Inv(cfg, start, CheckFinished(cfg, s))
  {
    var t := CheckFinished(cfg, s);
    assert t == s.(isDone := t.isDone);
  }

  /** After every dispatch the crawl is over or a worker runs: it cannot hang with work left. */
  lemma DispatchKeeps(cfg: Config, start: Url, s: State)
    requires GoodConfig(cfg) && CoreInv(cfg, start, s)
    ensures Inv(cfg, start, Dispatch(cfg, s))
  {
    if s.isDone || s.aborted {
      CheckFinishedKeeps(cfg, start, s);
    } else {
      DispatchLoopKeeps(cfg, start, s);
      CheckFinishedKeeps(cfg, start, DispatchLoop(cfg, s));
    }
  }

  lemma PushKeepsQueue(log: seq<Item>, pending: seq<Item>, enqueued: set<Url>, x: Item)
    requires QueueInv(log, pending, enqueued) && x.url !in enqueued
    ensures QueueInv(log + [x], pending + [x], enqueued + {x.url})
  {
    var more := log + [x];
    forall u | u in enqueued + {x.url}
      ensures Queued(more, u)
    {
      if u in enqueued {
        assert Queued(log, u);
        var i :| 0 <= i < |log| && log[i].url == u;
        assert more[i].url == u;
      } else {
        assert more[|log|].url == u;
      }
    }
  }

  lemma PushKeepsDepth(maxDepth: nat, start: Url, log: seq<Item>, pages: map<Url, Page>, x: Item)
    requires DepthInv(maxDepth, start, log, pages) && x.depth <= maxDepth && ParentOk(pages, x)
    ensures DepthInv(maxDepth, start, log + [x], pages)
  {
    var more := log + [x];
    forall i | 0 < i < |more|
      ensures ParentOk(pages, more[i])
    {
      if i < |log| {
        assert ParentOk(pages, log[i]) && more[i] == log[i];
      }
    }
  }

  lemma PushKeeps(cfg: Config, start: Url, s: State, x: Item)
    requires CoreInv(cfg, start, s) && Active(s) > 0
    requires x.url !in s.enqueued && |s.enqueued| < 3 * cfg.maxPages && x.depth <= cfg.maxDepth && ParentOk(s.pages, x)
    ensures CoreInv(cfg, start, Push(s, x))
  {
    var n, more := Dispatched(s), s.log + [x];
    PushKeepsQueue(s.log, s.pending, s.enqueued, x);
    PushKeepsDepth(cfg.maxDepth, start, s.log, s.pages, x);
    TakenInvGrows(s.log, n, s.fetching, s.stored, s.closing, s.pages, more, n);
  }

  lemma {:induction false} PushLinksKeeps(cfg: Config, start: Url, s: State, links: seq<Url>, from: Item)
    requires CoreInv(cfg, start, s) && Active(s) > 0
    requires from.depth < cfg.maxDepth && from.url in s.pages && s.pages[from.url].depth == from.depth
    ensures CoreInv(cfg, start, PushLinks(cfg, s, links, from))
    ensures var t := PushLinks(cfg, s, links, from);
            t == s.(enqueued := t.enqueued, pending := t.pending, log := t.log)
    decreases |links|
  {
    hide QueueInv, TakenInv, PhaseInv, DepthInv;
    if links != [] {
      var x := Item(links[0], from.depth + 1, Some(from.url));
      if x.url !in s.enqueued && |s.enqueued| < cfg.maxPages * 3 {
        PushKeeps(cfg, start, s, x);
      }
      PushLinksKeeps(cfg, start, PushLink(cfg, s, links[0], from), links[1..], from);
    }
  }
}
