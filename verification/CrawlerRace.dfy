/**
 Why the breadth-first theorem needs its condition. With two workers or more, a depth limit of
 three or more and a budget of six pages or more, a slow fetch on the short way to a page lets a
 longer way claim the page first; then it and everything behind it is recorded one level too deep,
 and the last page within the depth limit may never be crawled.
 */
module CrawlerRace {
  import opened Options
  import opened CrawlerModel
  import opened CrawlerSafety
  import opened CrawlerBfs
  import opened CrawlerBudget

  /**
   A start page with links to `a` and to the first page of a chain; the page `a` links to the third
   page of the chain, and every page of the chain to the next.
   */
  datatype Names = Names(s: Url, a: Url, chain: seq<Url>)

  /** Different, allowed addresses, and a chain of at least three pages. */
  ghost predicate Suits(n: Names, cfg: Config) {
    && |n.chain| >= 3
    && n.s != n.a && n.s !in n.chain && n.a !in n.chain
    && (forall i, j :: 0 <= i < j < |n.chain| ==> n.chain[i] != n.chain[j])
    && cfg.allowed(n.s) && cfg.allowed(n.a) && forall u :: u in n.chain ==> cfg.allowed(u)
  }

  function IndexOf(chain: seq<Url>, u: Url): (i: nat)
    ensures i < |chain| ==> chain[i] == u
    ensures i >= |chain| ==> u !in chain
    decreases |chain|
  {
    if chain == [] then 0 else if chain[0] == u then 0 else 1 + IndexOf(chain[1..], u)
  }

  function Links(n: Names, u: Url): seq<Url> {
    if |n.chain| < 3 then []
    else if u == n.s then [n.a, n.chain[0]]
    else if u == n.a then [n.chain[2]]
    else
      var k := IndexOf(n.chain, u);
      if k + 1 < |n.chain| then [n.chain[k + 1]] else []
  }

  function TheSite(n: Names): Site {
    Site((u: Url) => true, (u: Url) => Links(n, u))
  }

  function PageOf(x: Item): Page {
    Page(x.depth, x.parent)
  }

  function ItemS(n: Names): Item { Item(n.s, 0, None) }

  function ItemA(n: Names): Item { Item(n.a, 1, Some(n.s)) }

  /** The pages of the chain as they are queued along it. */
  function ItemAt(n: Names, k: nat): Item
    requires k < |n.chain|
  {
    Item(n.chain[k], k + 1, Some(if k == 0 then n.s else n.chain[k - 1]))
  }

  // ---- runs of this site ----

  /** Some events of the site lead from one state to the other. */
  ghost predicate Leads(cfg: Config, n: Names, s: State, t: State) {
    exists es :: Run(cfg, n, s, es, t)
  }

  ghost predicate Run(cfg: Config, n: Names, s: State, es: seq<Event>, t: State) {
    && Possible(cfg, s, es) && Exec(cfg, s, es) == t
    && forall e :: e in es ==> Follows(TheSite(n), e)
  }

  lemma LeadsNowhere(cfg: Config, n: Names, s: State)
    ensures Leads(cfg, n, s, s)
  {
    assert Run(cfg, n, s, [], s);
  }

  lemma LeadsOn(cfg: Config, n: Names, s: State, t: State, e: Event)
    requires Leads(cfg, n, s, t) && Enabled(t, e) && Follows(TheSite(n), e)
    ensures Leads(cfg, n, s, Apply(cfg, t, e))
  {
    hide Apply, Enabled, Follows;
    var es :| Run(cfg, n, s, es, t);
    ExecSnoc(cfg, s, es, e);
    assert Run(cfg, n, s, es + [e], Apply(cfg, t, e));
  }

  lemma {:induction false} ExecSnoc(cfg: Config, s: State, es: seq<Event>, e: Event)
    requires Possible(cfg, s, es) && Enabled(Exec(cfg, s, es), e)
    ensures Possible(cfg, s, es + [e]) && Exec(cfg, s, es + [e]) == Apply(cfg, Exec(cfg, s, es), e)
    decreases |es|
  {
    hide Apply, Enabled;
    if es == [] {
      assert es + [e] == [e] && [e][1..] == [];
    } else {
      assert (es + [e])[0] == es[0] && (es + [e])[1..] == es[1..] + [e];
      ExecSnoc(cfg, Apply(cfg, s, es[0]), es[1..], e);
    }
  }

  // ---- one page at a time, while `a` is being fetched ----

  /** A crawl whose queue is empty and whose only workers fetch these items. */
  predicate Fetching(s: State, xs: set<Item>) {
    s.pending == [] && s.fetching == xs && s.stored == {} && s.closing == {} && !s.aborted && !s.isDone
  }

  /** The page of `x` is stored. */
  function Stored(s: State, x: Item): State {
    s.(pages := s.pages[x.url := PageOf(x)])
  }

  /** It is stored, and its link has been queued and is being fetched by the same worker's successor. */
  function Advanced(s: State, a: Item, x: Item, y: Item): State {
    Stored(s, x).(enqueued := s.enqueued + {y.url}, fetching := {a, y}, log := s.log + [y])
  }

  lemma DispatchNothing(cfg: Config, s: State)
    requires s.pending == [] && !s.isDone && !s.aborted && |s.pages| < cfg.maxPages
    ensures Dispatch(cfg, s) == s.(isDone := Active(s) == 0)
  {
  }

  lemma DispatchFront(cfg: Config, s: State, x: Item)
    requires s.pending == [x] && !s.isDone && !s.aborted && CanDispatch(cfg, s)
    requires x.url !in s.pages && x.depth <= cfg.maxDepth && cfg.allowed(x.url) && x !in s.fetching
    requires Active(s) < cfg.concurrencyLimit && |s.pages| + 1 < cfg.maxPages
    ensures Dispatch(cfg, s) == s.(pending := [], fetching := s.fetching + {x})
  {
    var t := s.(pending := [], fetching := s.fetching + {x});
    assert DispatchOne(cfg, s) == t;
    assert DispatchLoop(cfg, s) == DispatchLoop(cfg, t) == t;
  }

  /** The page of `x` is stored, and its callback runs. */
  function Held(s: State, others: set<Item>, x: Item): State {
    Stored(s, x).(fetching := others, stored := {x})
  }

  /** The callback has returned, and what it queued is `ys`. */
  function Read(s: State, others: set<Item>, x: Item, ys: seq<Item>, queued: set<Url>): State {
    Stored(s, x).(fetching := others, closing := {x}, pending := ys, log := s.log + ys, enqueued := s.enqueued + queued)
  }

  /** From one state of this crawl to the next. */
  ghost predicate Goes(cfg: Config, n: Names, s: State, e: Event, t: State) {
    Enabled(s, e) && Apply(cfg, s, e) == t && Follows(TheSite(n), e)
  }

  lemma FetchStep(cfg: Config, n: Names, s: State, others: set<Item>, x: Item)
    requires Fetching(s, others + {x}) && x !in others
    ensures Goes(cfg, n, s, Fetched(x), Held(s, others, x))
  {
    assert others + {x} - {x} == others;
  }

  lemma LinkStep(cfg: Config, n: Names, s: State, others: set<Item>, x: Item, l: Url)
    requires Fetching(s, others + {x}) && x !in others
    requires Links(n, x.url) == [l] && l !in s.enqueued && |s.enqueued| < 3 * cfg.maxPages
    requires x.depth < cfg.maxDepth && |s.pages| + 1 < cfg.maxPages
    ensures Goes(cfg, n, Held(s, others, x), CallbackOk(x, [l]),
                 Read(s, others, x, [Item(l, x.depth + 1, Some(x.url))], {l}))
  {
    hide Discover, Links, Dispatch, StorePage, Push, Close, Read;
    NewLink(cfg, Held(s, others, x), x, l);
    assert Apply(cfg, Held(s, others, x), CallbackOk(x, [l])) == Close(Discover(cfg, Held(s, others, x), x, [l]), x, 0);
    ClosesRead(s, others, x, Item(l, x.depth + 1, Some(x.url)));
  }

  lemma ClosesRead(s: State, others: set<Item>, x: Item, y: Item)
    requires x !in others && s.pending == [] && s.stored == {} && s.closing == {}
    ensures Close(Push(Held(s, others, x), y), x, 0) == Read(s, others, x, [y], {y.url})
  {
    assert others - {x} == others && {x} - {x} == {} && {} + {x} == {x};
    assert s.pending + [y] == [y];
  }

  lemma NewLink(cfg: Config, s: State, x: Item, l: Url)
    requires l !in s.enqueued && |s.enqueued| < 3 * cfg.maxPages && x.depth < cfg.maxDepth && |s.pages| < cfg.maxPages
    ensures Discover(cfg, s, x, [l]) == Push(s, Item(l, x.depth + 1, Some(x.url)))
  {
    OneLink(cfg, s, l, x);
    hide PushLinks;
  }

  lemma OneLink(cfg: Config, s: State, l: Url, x: Item)
    ensures PushLinks(cfg, s, [l], x) == PushLink(cfg, s, l, x)
  {
    assert [l][1..] == [];
  }

  lemma SettleStep(cfg: Config, n: Names, s: State, a: Item, x: Item, y: Item)
    requires Fetching(s, {a, x}) && cfg.concurrencyLimit >= 2 && |s.pages| + 3 < cfg.maxPages
    requires y.url !in s.pages && y.url != x.url && y.depth <= cfg.maxDepth && cfg.allowed(y.url) && y != a
    ensures Goes(cfg, n, Read(s, {a}, x, [y], {y.url}), Settled(x), Advanced(s, a, x, y))
  {
    var t := Read(s, {a}, x, [y], {y.url});
    assert t.closing - {x} == {} && {a} + {y} == {a, y};
    DispatchFront(cfg, t.(closing := {}), y);
    hide Dispatch;
  }

  /** Two workers fetch `a` and `x`, and the one link of `x` is new, allowed and within the limits. */
  predicate IsReady(cfg: Config, n: Names, s: State, a: Item, x: Item, l: Url) {
    && Fetching(s, {a, x}) && a != x
    && cfg.concurrencyLimit >= 2 && |s.pages| + 3 < cfg.maxPages && |s.enqueued| < 3 * cfg.maxPages
    && x.depth < cfg.maxDepth && Links(n, x.url) == [l] && cfg.allowed(l)
    && l !in s.pages && l != x.url && l !in s.enqueued && l != a.url
  }

  /** Fetching, storing and settling `x`. */
  lemma Advance(cfg: Config, n: Names, s0: State, s: State, a: Item, x: Item, l: Url)
    requires Leads(cfg, n, s0, s) && IsReady(cfg, n, s, a, x, l)
    ensures Leads(cfg, n, s0, Advanced(s, a, x, Item(l, x.depth + 1, Some(x.url))))
  {
    var y := Item(l, x.depth + 1, Some(x.url));
    assert {a, x} == {a} + {x};
    FetchStep(cfg, n, s, {a}, x);
    LinkStep(cfg, n, s, {a}, x, l);
    SettleStep(cfg, n, s, a, x, y);
    hide Leads, Links, Apply, Enabled, Follows, Held, Read, Advanced, Fetching;
    LeadsOn(cfg, n, s0, s, Fetched(x));
    LeadsOn(cfg, n, s0, Held(s, {a}, x), CallbackOk(x, [l]));
    LeadsOn(cfg, n, s0, Read(s, {a}, x, [y], {y.url}), Settled(x));
  }

  // ---- the run ----

  /** The crawl when `a` is being fetched and the chain has been crawled up to its page `k`. */
  ghost function Along(n: Names, k: nat): State
    requires k < |n.chain|
    decreases k
  {
    if k == 0
    then State(map[n.s := PageOf(ItemS(n))], [], {n.s, n.a, n.chain[0]}, {ItemA(n), ItemAt(n, 0)}, {}, {}, 0, false, false,
               [ItemS(n), ItemA(n), ItemAt(n, 0)])
    else Advanced(Along(n, k - 1), ItemA(n), ItemAt(n, k - 1), ItemAt(n, k))
  }

  /** The first `k` pages of the chain. */
  function Front(n: Names, k: nat): set<Url>
    requires k <= |n.chain|
    decreases k
  {
    if k == 0 then {} else Front(n, k - 1) + {n.chain[k - 1]}
  }

  lemma {:induction false} FrontFacts(n: Names, cfg: Config, k: nat)
    requires Suits(n, cfg) && k <= |n.chain|
    ensures |Front(n, k)| == k && n.s !in Front(n, k) && n.a !in Front(n, k)
    ensures forall i :: 0 <= i < |n.chain| ==> (n.chain[i] in Front(n, k) <==> i < k)
    decreases k
  {
    if k > 0 {
      FrontFacts(n, cfg, k - 1);
    }
  }

  lemma {:induction false} AlongFacts(n: Names, k: nat)
    requires k < |n.chain|
    ensures var s := Along(n, k);
            && Fetching(s, {ItemA(n), ItemAt(n, k)})
            && s.pages.Keys == {n.s} + Front(n, k)
            && s.enqueued == {n.s, n.a} + Front(n, k + 1)
    decreases k
  {
    if k == 0 {
      FrontOfOne(n);
    } else {
      AlongFacts(n, k - 1);
      hide Along, Fetching, Front, ItemA, ItemAt;
      AlongOn(n, k);
    }
  }

  lemma AlongOn(n: Names, k: nat)
    requires 0 < k < |n.chain|
    requires var s := Along(n, k - 1);
             && Fetching(s, {ItemA(n), ItemAt(n, k - 1)})
             && s.pages.Keys == {n.s} + Front(n, k - 1)
             && s.enqueued == {n.s, n.a} + Front(n, k)
    ensures var s := Along(n, k);
            && Fetching(s, {ItemA(n), ItemAt(n, k)})
            && s.pages.Keys == {n.s} + Front(n, k)
            && s.enqueued == {n.s, n.a} + Front(n, k + 1)
  {
    hide Along, Advanced, Fetching, Front, ItemA, ItemAt;
    AlongNext(n, k);
    NextItem(n, k);
    FrontNext(n, k);
    FrontNext(n, k + 1);
    AdvancedFacts(Along(n, k - 1), ItemA(n), ItemAt(n, k - 1), ItemAt(n, k));
  }

  lemma FrontOfOne(n: Names)
    requires n.chain != []
    ensures Front(n, 0) == {} && Front(n, 1) == {n.chain[0]}
  {
    assert Front(n, 1) == Front(n, 0) + {n.chain[0]};
  }

  lemma FrontNext(n: Names, k: nat)
    requires 0 < k <= |n.chain|
    ensures Front(n, k) == Front(n, k - 1) + {n.chain[k - 1]}
  {
  }

  lemma AdvancedFacts(s: State, a: Item, x: Item, y: Item)
    requires Fetching(s, {a, x})
    ensures var t := Advanced(s, a, x, y);
            && Fetching(t, {a, y})
            && t.pages.Keys == s.pages.Keys + {x.url} && t.enqueued == s.enqueued + {y.url}
  {
  }

  lemma AlongNext(n: Names, k: nat)
    requires 0 < k < |n.chain|
    ensures Along(n, k) == Advanced(Along(n, k - 1), ItemA(n), ItemAt(n, k - 1), ItemAt(n, k))
  {
  }

  predicate RoomFor(cfg: Config) {
    cfg.concurrencyLimit >= 2 && cfg.maxDepth >= 3 && cfg.maxPages >= 6
  }

  /** The crawl comes as far as this page of the chain without meeting a limit. */
  predicate Fits(cfg: Config, n: Names, k: nat) {
    k < |n.chain| && k < cfg.maxDepth && k + 4 <= cfg.maxPages
  }

  /** It goes no further: the chain or the depth limit ends there. */
  predicate EndsAt(cfg: Config, n: Names, k: nat) {
    k >= 2 && Fits(cfg, n, k) && (k + 1 == |n.chain| || k + 1 == cfg.maxDepth)
  }

  lemma ChainLinks(n: Names, cfg: Config, k: nat)
    requires Suits(n, cfg) && k + 1 < |n.chain|
    ensures Links(n, n.chain[k]) == [n.chain[k + 1]]
  {
    var i := IndexOf(n.chain, n.chain[k]);
    assert n.chain[k] in n.chain;
    assert i == k;
  }

  lemma {:induction false} GoesAlong(cfg: Config, n: Names, k: nat)
    requires RoomFor(cfg) && Suits(n, cfg) && Fits(cfg, n, k)
    ensures Leads(cfg, n, Along(n, 0), Along(n, k))
    decreases k
  {
    if k == 0 {
      LeadsNowhere(cfg, n, Along(n, 0));
    } else {
      GoesAlong(cfg, n, k - 1);
      hide Leads, RoomFor, Suits, Along;
      GoesOn(cfg, n, k);
    }
  }

  lemma GoesOn(cfg: Config, n: Names, k: nat)
    requires RoomFor(cfg) && Suits(n, cfg) && 0 < k && Fits(cfg, n, k) && Leads(cfg, n, Along(n, 0), Along(n, k - 1))
    ensures Leads(cfg, n, Along(n, 0), Along(n, k))
  {
    hide Leads, IsReady, Along, Advanced, Suits, RoomFor, ItemA, ItemAt;
    AlongNext(n, k);
    NextItem(n, k);
    ReadyAlong(cfg, n, k);
    Advance(cfg, n, Along(n, 0), Along(n, k - 1), ItemA(n), ItemAt(n, k - 1), n.chain[k]);
  }

  lemma NextItem(n: Names, k: nat)
    requires 0 < k < |n.chain|
    ensures var x := ItemAt(n, k - 1);
            && x.url == n.chain[k - 1] && x.depth == k
            && ItemAt(n, k) == Item(n.chain[k], x.depth + 1, Some(x.url))
  {
  }

  lemma ReadyAlong(cfg: Config, n: Names, k: nat)
    requires RoomFor(cfg) && Suits(n, cfg) && 0 < k && Fits(cfg, n, k)
    ensures IsReady(cfg, n, Along(n, k - 1), ItemA(n), ItemAt(n, k - 1), n.chain[k])
  {
    hide Along, Front, Links, Fetching, Suits, ItemAt;
    NextItem(n, k);
    FetchesAlong(n, k - 1);
    ChainLinks(n, cfg, k - 1);
    SizesAlong(n, cfg, k - 1);
    NamesDiffer(cfg, n, k);
    FreshAlong(cfg, n, k);
  }

  lemma FetchesAlong(n: Names, k: nat)
    requires k < |n.chain|
    ensures Fetching(Along(n, k), {ItemA(n), ItemAt(n, k)})
  {
    AlongFacts(n, k);
  }

  lemma FreshAlong(cfg: Config, n: Names, k: nat)
    requires Suits(n, cfg) && 0 < k < |n.chain|
    ensures n.chain[k] !in Along(n, k - 1).pages && n.chain[k] !in Along(n, k - 1).enqueued
  {
    hide Along, Front, Fetching, Suits;
    AlongFacts(n, k - 1);
    NotInFront(cfg, n, k, k);
    NotInFront(cfg, n, k, k - 1);
    NamesDiffer(cfg, n, k);
    assert n.chain[k] !in Front(n, k) && n.chain[k] !in Front(n, k - 1);
  }

  lemma NotInFront(cfg: Config, n: Names, k: nat, i: nat)
    requires Suits(n, cfg) && i <= k < |n.chain|
    ensures n.chain[k] !in Front(n, i)
  {
    hide Front;
    FrontFacts(n, cfg, i);
  }

  lemma NamesDiffer(cfg: Config, n: Names, k: nat)
    requires Suits(n, cfg) && 0 < k < |n.chain|
    ensures cfg.allowed(n.chain[k]) && n.chain[k] != n.chain[k - 1]
    ensures n.chain[k] != n.a && n.chain[k] != n.s && n.a != n.chain[k - 1]
  {
    assert n.chain[k] in n.chain && n.chain[k - 1] in n.chain;
  }

  lemma SizesAlong(n: Names, cfg: Config, k: nat)
    requires Suits(n, cfg) && k < |n.chain|
    ensures |Along(n, k).pages| == k + 1 && |Along(n, k).enqueued| == k + 3
  {
    AlongFacts(n, k);
    FrontFacts(n, cfg, k);
    FrontFacts(n, cfg, k + 1);
    hide Along, Front;
    var s := Along(n, k);
    assert |s.pages.Keys| == |s.pages|;
    assert |{n.s} + Front(n, k)| == 1 + k;
    assert {n.s, n.a} !! Front(n, k + 1);
    assert |{n.s, n.a} + Front(n, k + 1)| == |{n.s, n.a}| + (k + 1);
  }

  // ---- the ends of the run ----

  /** Nothing new to queue: the page is too deep, or has no link, or its only link is known. */
  lemma CloseStep(cfg: Config, n: Names, s: State, others: set<Item>, x: Item)
    requires Fetching(s, others + {x}) && x !in others
    requires x.depth >= cfg.maxDepth || AreKnown(s, Links(n, x.url))
    ensures Goes(cfg, n, Held(s, others, x), CallbackOk(x, Links(n, x.url)), Read(s, others, x, [], {}))
  {
    hide Discover, Links, Dispatch, StorePage;
    NoLink(cfg, Held(s, others, x), x, Links(n, x.url));
    assert others - {x} == others && {x} - {x} == {};
    assert s.log + [] == s.log && s.enqueued + {} == s.enqueued;
  }

  /** There is no link, or one that is queued already. */
  predicate AreKnown(s: State, ls: seq<Url>) {
    ls == [] || (|ls| == 1 && ls[0] in s.enqueued)
  }

  lemma NoLink(cfg: Config, s: State, x: Item, ls: seq<Url>)
    requires x.depth >= cfg.maxDepth || AreKnown(s, ls)
    ensures Discover(cfg, s, x, ls) == s
  {
    if x.depth < cfg.maxDepth && ls != [] {
      assert ls == [ls[0]];
      OneLink(cfg, s, ls[0], x);
    }
    hide PushLinks;
  }

  /** The worker that settles finds nothing to do; without another one the crawl is done. */
  lemma IdleStep(cfg: Config, n: Names, s: State, others: set<Item>, x: Item)
    requires Fetching(s, others + {x}) && x !in others
    requires |Stored(s, x).pages| < cfg.maxPages
    ensures Goes(cfg, n, Read(s, others, x, [], {}), Settled(x), Stored(s, x).(fetching := others, isDone := |others| == 0))
  {
    var t := Read(s, others, x, [], {});
    assert t.closing - {x} == {};
    assert s.log + [] == s.log;
    DispatchNothing(cfg, t.(closing := {}));
    hide Dispatch;
  }

  /** A last page of a worker: fetched, read, and settled. */
  lemma Conclude(cfg: Config, n: Names, s0: State, s: State, others: set<Item>, x: Item)
    requires Leads(cfg, n, s0, s) && Fetching(s, others + {x}) && x !in others
    requires x.depth >= cfg.maxDepth || AreKnown(s, Links(n, x.url))
    requires |Stored(s, x).pages| < cfg.maxPages
    ensures Leads(cfg, n, s0, Stored(s, x).(fetching := others, isDone := |others| == 0))
  {
    FetchStep(cfg, n, s, others, x);
    CloseStep(cfg, n, s, others, x);
    IdleStep(cfg, n, s, others, x);
    hide Leads, Links, Apply, Enabled, Follows, Held, Read, Fetching, Stored;
    LeadsOn(cfg, n, s0, s, Fetched(x));
    LeadsOn(cfg, n, s0, Held(s, others, x), CallbackOk(x, Links(n, x.url)));
    LeadsOn(cfg, n, s0, Read(s, others, x, [], {}), Settled(x));
  }

  /** The two workers' last pages: the end of the chain within the depth limit, and then `a`. */
  function Ended(n: Names, s: State, x: Item): State {
    Stored(Stored(s, x).(fetching := {ItemA(n)}, isDone := false), ItemA(n)).(fetching := {}, isDone := true)
  }

  lemma GoesToTheEnd(cfg: Config, n: Names, k: nat)
    requires RoomFor(cfg) && Suits(n, cfg) && EndsAt(cfg, n, k)
    ensures Leads(cfg, n, Along(n, 0), Ended(n, Along(n, k), ItemAt(n, k)))
  {
    var s, a, x := Along(n, k), ItemA(n), ItemAt(n, k);
    GoesAlong(cfg, n, k);
    NearTheEnd(cfg, n, k);
    LastLinks(cfg, n, k);
    hide Leads, Along, Links, Suits;
    assert |Stored(s, x).pages| <= |s.pages| + 1;
    assert {a, x} == {a} + {x};
    Conclude(cfg, n, Along(n, 0), s, {a}, x);
    var t := Stored(s, x).(fetching := {a}, isDone := false);
    assert |{a}| == 1 && {} + {a} == {a};
    assert |Stored(t, a).pages| <= |t.pages| + 1;
    Conclude(cfg, n, Along(n, 0), t, {}, a);
  }

  lemma LastLinks(cfg: Config, n: Names, k: nat)
    requires Suits(n, cfg) && EndsAt(cfg, n, k)
    ensures ItemAt(n, k).depth >= cfg.maxDepth || Links(n, n.chain[k]) == []
  {
    var i := IndexOf(n.chain, n.chain[k]);
    assert n.chain[k] in n.chain;
    assert i == k;
  }

  lemma NearTheEnd(cfg: Config, n: Names, k: nat)
    requires RoomFor(cfg) && Suits(n, cfg) && EndsAt(cfg, n, k)
    ensures var s := Along(n, k);
            && ItemA(n) != ItemAt(n, k) && Fetching(s, {ItemA(n), ItemAt(n, k)})
            && |s.pages| + 2 < cfg.maxPages
            && Links(n, n.a) == [n.chain[2]] && n.chain[2] in s.enqueued
  {
    hide Along, Front, Links, Fetching, Suits, RoomFor;
    AlongFacts(n, k);
    SizesAlong(n, cfg, k);
    FrontFacts(n, cfg, k + 1);
    ForkLinks(cfg, n);
    NamesDiffer(cfg, n, k);
  }

  // ---- the beginning of the run ----

  function Started(n: Names): State {
    State(map[], [], {n.s}, {ItemS(n)}, {}, {}, 0, false, false, [ItemS(n)])
  }

  lemma StartsThere(cfg: Config, n: Names)
    requires RoomFor(cfg) && Suits(n, cfg)
    ensures Start(cfg, n.s, false) == Started(n)
  {
    var s := Push(Fresh(false), ItemS(n));
    assert {} + {ItemS(n)} == {ItemS(n)};
    DispatchFront(cfg, s, ItemS(n));
  }

  /** The state in which the start page's two links are queued. */
  function Forked(n: Names): State
    requires n.chain != []
  {
    State(map[n.s := PageOf(ItemS(n))], [ItemA(n), ItemAt(n, 0)], {n.s, n.a, n.chain[0]}, {}, {}, {ItemS(n)}, 0, false, false,
          [ItemS(n), ItemA(n), ItemAt(n, 0)])
  }

  lemma TwoLinks(cfg: Config, n: Names)
    requires RoomFor(cfg) && Suits(n, cfg)
    ensures var t := Held(Started(n), {}, ItemS(n));
            Discover(cfg, t, ItemS(n), [n.a, n.chain[0]]) == Push(Push(t, ItemA(n)), ItemAt(n, 0))
  {
    var t := Held(Started(n), {}, ItemS(n));
    var u := PushLink(cfg, t, n.a, ItemS(n));
    assert u == Push(t, ItemA(n));
    assert n.chain[0] in n.chain;
    assert PushLink(cfg, u, n.chain[0], ItemS(n)) == Push(u, ItemAt(n, 0));
    assert [n.a, n.chain[0]][1..] == [n.chain[0]];
    OneLink(cfg, u, n.chain[0], ItemS(n));
    hide PushLink;
  }

  lemma ForkStep(cfg: Config, n: Names)
    requires RoomFor(cfg) && Suits(n, cfg)
    ensures Goes(cfg, n, Held(Started(n), {}, ItemS(n)), CallbackOk(ItemS(n), [n.a, n.chain[0]]), Forked(n))
  {
    hide Discover, Dispatch, StorePage;
    TwoLinks(cfg, n);
    assert {} - {ItemS(n)} == {} && {ItemS(n)} - {ItemS(n)} == {};
  }

  lemma TwoDispatches(cfg: Config, n: Names)
    requires RoomFor(cfg) && Suits(n, cfg)
    ensures Dispatch(cfg, Forked(n).(closing := {})) == Along(n, 0)
  {
    var s := Forked(n).(closing := {});
    var t := s.(pending := [ItemAt(n, 0)], fetching := {ItemA(n)});
    assert n.chain[0] in n.chain;
    assert DispatchOne(cfg, s) == t;
    assert DispatchLoop(cfg, s) == DispatchLoop(cfg, t);
    DispatchFront(cfg, t, ItemAt(n, 0));
    hide DispatchLoop;
    assert Dispatch(cfg, s) == Dispatch(cfg, t);
  }

  lemma FirstSettles(cfg: Config, n: Names)
    requires RoomFor(cfg) && Suits(n, cfg)
    ensures Goes(cfg, n, Forked(n), Settled(ItemS(n)), Along(n, 0))
  {
    TwoDispatches(cfg, n);
    hide Dispatch;
    assert Forked(n).closing - {ItemS(n)} == {};
  }

  lemma GoesToTheFork(cfg: Config, n: Names)
    requires RoomFor(cfg) && Suits(n, cfg)
    ensures Leads(cfg, n, Start(cfg, n.s, false), Along(n, 0))
  {
    StartsThere(cfg, n);
    assert {} + {ItemS(n)} == {ItemS(n)};
    FetchStep(cfg, n, Started(n), {}, ItemS(n));
    ForkStep(cfg, n);
    FirstSettles(cfg, n);
    hide Leads, Links, Apply, Enabled, Follows, Held, Fetching, Along, Forked, Start;
    LeadsNowhere(cfg, n, Started(n));
    LeadsOn(cfg, n, Started(n), Started(n), Fetched(ItemS(n)));
    LeadsOn(cfg, n, Started(n), Held(Started(n), {}, ItemS(n)), CallbackOk(ItemS(n), [n.a, n.chain[0]]));
    LeadsOn(cfg, n, Started(n), Forked(n), Settled(ItemS(n)));
  }

  lemma LeadsTransitive(cfg: Config, n: Names, s: State, t: State, u: State)
    requires Leads(cfg, n, s, t) && Leads(cfg, n, t, u)
    ensures Leads(cfg, n, s, u)
  {
    var es :| Run(cfg, n, s, es, t);
    var fs :| Run(cfg, n, t, fs, u);
    ExecConcat(cfg, s, es, fs);
    assert Run(cfg, n, s, es + fs, u);
  }

  lemma {:induction false} ExecConcat(cfg: Config, s: State, es: seq<Event>, fs: seq<Event>)
    requires Possible(cfg, s, es) && Possible(cfg, Exec(cfg, s, es), fs)
    ensures Possible(cfg, s, es + fs) && Exec(cfg, s, es + fs) == Exec(cfg, Exec(cfg, s, es), fs)
    decreases |es|
  {
    hide Apply, Enabled;
    if es == [] {
      assert es + fs == fs;
    } else {
      assert (es + fs)[0] == es[0] && (es + fs)[1..] == es[1..] + fs;
      ExecConcat(cfg, Apply(cfg, s, es[0]), es[1..], fs);
    }
  }

  // ---- what goes wrong ----

  /** The short way: the start page, `a`, and then along the chain. */
  lemma ChainIsNear(cfg: Config, n: Names, k: nat)
    requires Suits(n, cfg) && 2 <= k < |n.chain|
    ensures Reaches(cfg, TheSite(n), n.s, n.chain[k], k)
    ensures Good(cfg, TheSite(n), n.chain[k])
  {
    var w := ShortWay(n, k);
    forall i | 0 <= i < k
      ensures Good(cfg, TheSite(n), w[i]) && w[i + 1] in TheSite(n).links(w[i])
    {
      NearStep(cfg, n, k, i);
    }
    assert n.chain[k] in n.chain;
    hide Links, Good, Suits;
    assert Walk(cfg, TheSite(n), w);
  }

  function ShortWay(n: Names, k: nat): (w: seq<Url>)
    requires 2 <= k < |n.chain|
    ensures |w| == k + 1 && w[0] == n.s && w[1] == n.a && forall i :: 2 <= i <= k ==> w[i] == n.chain[i]
  {
    [n.s, n.a] + n.chain[2..k + 1]
  }

  lemma NearStep(cfg: Config, n: Names, k: nat, i: nat)
    requires Suits(n, cfg) && 2 <= k < |n.chain| && i < k
    ensures var w := ShortWay(n, k);
            Good(cfg, TheSite(n), w[i]) && w[i + 1] in Links(n, w[i])
  {
    hide ShortWay;
    assert i >= 2 ==> n.chain[i] in n.chain;
    if i >= 2 {
      ChainLinks(n, cfg, i);
    } else {
      ForkLinks(cfg, n);
    }
    hide Links;
  }

  lemma ForkLinks(cfg: Config, n: Names)
    requires Suits(n, cfg)
    ensures Links(n, n.s) == [n.a, n.chain[0]] && Links(n, n.a) == [n.chain[2]]
  {
  }

  lemma EndsUncapped(cfg: Config, n: Names, k: nat)
    requires RoomFor(cfg) && Suits(n, cfg) && EndsAt(cfg, n, k)
    ensures var t := Ended(n, Along(n, k), ItemAt(n, k));
            t.isDone && Uncapped(cfg, t.pages, t.enqueued)
    ensures var t := Ended(n, Along(n, k), ItemAt(n, k));
            forall i :: k < i < |n.chain| ==> n.chain[i] !in t.pages
  {
    var s, x := Along(n, k), ItemAt(n, k);
    AlongFacts(n, k);
    SizesAlong(n, cfg, k);
    FrontFacts(n, cfg, k);
    hide Along, Front;
    assert |Stored(s, x).pages| <= |s.pages| + 1;
    assert forall i :: k < i < |n.chain| ==> n.chain[i] in n.chain && n.chain[i] != n.chain[k];
  }

  /** Some crawl of the site ends like this. */
  lemma EndIsReached(cfg: Config, n: Names, k: nat) returns (es: seq<Event>)
    requires RoomFor(cfg) && Suits(n, cfg) && EndsAt(cfg, n, k)
    ensures IsCrawl(cfg, n.s, TheSite(n), es)
    ensures Exec(cfg, Start(cfg, n.s, false), es) == Ended(n, Along(n, k), ItemAt(n, k))
  {
    var t := Ended(n, Along(n, k), ItemAt(n, k));
    GoesToTheFork(cfg, n);
    GoesToTheEnd(cfg, n, k);
    EndsUncapped(cfg, n, k);
    hide Along, Ended, Suits;
    LeadsTransitive(cfg, n, Start(cfg, n.s, false), Along(n, 0), t);
    es :| Run(cfg, n, Start(cfg, n.s, false), es, t);
    hide Exec, Possible, Start, Follows, Uncapped;
    assert IsCrawl(cfg, n.s, TheSite(n), es);
  }

  /**
   With two workers or more, a depth limit of three or more and room for six pages, some crawl of
   a site of five pages ends with a page recorded at depth three that is two links away.
   */
  lemma SlowFetchMisplacesAPage(cfg: Config, n: Names)
    requires RoomFor(cfg) && Suits(n, cfg) && |n.chain| == 3
    ensures exists es ::
              && IsCrawl(cfg, n.s, TheSite(n), es)
              && var pages := Exec(cfg, Start(cfg, n.s, false), es).pages;
              && n.chain[2] in pages && pages[n.chain[2]].depth == 3
              && Reaches(cfg, TheSite(n), n.s, n.chain[2], 2)
              && !IsBreadthFirst(cfg, n.s, TheSite(n), es)
  {
    var es := EndIsReached(cfg, n, 2);
    ChainIsNear(cfg, n, 2);
    assert n.chain[2] in n.chain;
    var pages := Exec(cfg, Start(cfg, n.s, false), es).pages;
    assert n.chain[2] in pages && pages[n.chain[2]] == PageOf(ItemAt(n, 2));
    hide Exec, Start, Along, Ended, Reaches, Good, Suits, IsCrawl;
    assert !IsBreadthFirst(cfg, n.s, TheSite(n), es);
  }

  /**
   On a longer site, and with room for it, some crawl ends without a page that is as near as the
   depth limit allows.
   */
  lemma SlowFetchMissesAPage(cfg: Config, n: Names)
    requires RoomFor(cfg) && Suits(n, cfg) && |n.chain| > cfg.maxDepth && cfg.maxPages >= cfg.maxDepth + 3
    ensures exists es ::
              && IsCrawl(cfg, n.s, TheSite(n), es)
              && n.chain[cfg.maxDepth] !in Exec(cfg, Start(cfg, n.s, false), es).pages
              && Good(cfg, TheSite(n), n.chain[cfg.maxDepth])
              && Reaches(cfg, TheSite(n), n.s, n.chain[cfg.maxDepth], cfg.maxDepth)
              && !IsBreadthFirst(cfg, n.s, TheSite(n), es)
  {
    var k := cfg.maxDepth - 1;
    var es := EndIsReached(cfg, n, k);
    ChainIsNear(cfg, n, cfg.maxDepth);
    EndsUncapped(cfg, n, k);
    hide Exec, Start, Along, Ended, Uncapped, Reaches, Good, Suits, IsCrawl;
    assert n.chain[cfg.maxDepth] !in Exec(cfg, Start(cfg, n.s, false), es).pages;
    assert !IsBreadthFirst(cfg, n.s, TheSite(n), es);
  }

  lemma AddressesSuit(cfg: Config) returns (n: Names)
    requires AllowsFive(cfg)
    ensures Suits(n, cfg) && |n.chain| == 3
  {
    var us: seq<Url> :| |us| == 5 && AllDifferent(us) && forall u :: u in us ==> cfg.allowed(u);
    n := Names(us[0], us[1], us[2..]);
  }

  /**
   When the crawler is breadth-first whatever the site and however its workers interleave: exactly
   with one worker, or a depth limit of at most two, or a budget of at most five pages, or a robots
   rule that allows fewer than five addresses.
   */
  lemma BreadthFirstIff(cfg: Config)
    requires GoodConfig(cfg)
    ensures cfg.concurrencyLimit == 1 || cfg.maxDepth <= 2 || cfg.maxPages <= 5 || !AllowsFive(cfg) <==>
            forall start, site, es :: IsCrawl(cfg, start, site, es) ==> IsBreadthFirst(cfg, start, site, es)
  {
    hide IsCrawl, IsBreadthFirst, AllowsFive;
    if cfg.concurrencyLimit == 1 || cfg.maxDepth <= 2 || cfg.maxPages <= 5 || !AllowsFive(cfg) {
      forall start, site, es | IsCrawl(cfg, start, site, es)
        ensures IsBreadthFirst(cfg, start, site, es)
      {
        if cfg.concurrencyLimit == 1 || cfg.maxDepth <= 2 {
          CrawlIsBreadthFirst(cfg, start, site, es);
        } else {
          SmallCrawlIsBreadthFirst(cfg, start, site, es);
        }
      }
    } else {
      var n := AddressesSuit(cfg);
      hide Suits;
      SlowFetchMisplacesAPage(cfg, n);
    }
  }
}
