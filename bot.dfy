/**
 * bot.py: the long-running bot. A pass fetches every collection page by
 * page, diffs the handles against the seen-set and notifies; a polling
 * batch answers /day, /week, /start and /status and moves the update
 * cursor. Its two globals, `seen_products` and `bot_offset`, are the fields
 * of BotState. Fetches are inputs (one answer per page request), sends are
 * the events a method returns.
 */
module Bot {
  import opened Text
  import opened Catalog
  import opened Ordering
  import opened Telegram
  import opened Detection

  /** `limit=250` of `fetch_products_json`. */
  const PageSize: nat := 250
  /** `limit=50` of `get_latest_products`. */
  const WindowPageSize: nat := 50
  /** `CHECK_INTERVAL`, in seconds. */
  const CheckInterval: nat := 600
  const DaySeconds: int := 86400

  /**
   * The answers to `products.json?page=1`, `page=2`, … for one collection:
   * `None` where the request or its decoding raised. Past the end of the
   * list the storefront answers with an empty page.
   */
  type Pages = seq<Option<seq<RawProduct>>>

  // ───────────── fetch_products_json / fetch_all_products ─────────────

  /** What `fetch_products_json(collection, page)` returns: the normalised page, or `None` on an exception. */
  function JsonPage(collection: string, pages: Pages, page: nat): (r: Option<seq<Item>>)
    requires page >= 1
    ensures page - 1 >= |pages| ==> r == Some([])
    ensures page - 1 < |pages| ==> (r.None? <==> pages[page - 1].None?)
    ensures r.Some? && page - 1 < |pages| ==> r.value == NormalizeAll(collection, pages[page - 1].value)
  {
    if page - 1 >= |pages| then Some([])
    else if pages[page - 1].None? then None
    else Some(NormalizeAll(collection, pages[page - 1].value))
  }

  /** `fetch_products_json(collection, page)` */
  method FetchProductsJson(collection: string, pages: Pages, page: nat) returns (products: Option<seq<Item>>)
    requires page >= 1
    ensures products == JsonPage(collection, pages, page)
  {
    if page - 1 >= |pages| {
      return Some([]);
    }
    var data := pages[page - 1];
    if data.None? {
      return None;
    }
    var items := NormalizeEach(collection, data.value);
    return Some(items);
  }

  /** What `fetch_all_products` returns: full pages and then the page that stops the walk, concatenated. */
  function Drain(collection: string, pages: Pages): seq<Item>
    decreases |pages|
  {
    if pages == [] || pages[0].None? || pages[0].value == [] then []
    else
      var items := NormalizeAll(collection, pages[0].value);
      if |items| < PageSize then items else items + Drain(collection, pages[1..])
  }

  /** How many page requests `fetch_all_products` makes. */
  function DrainFetches(pages: Pages): nat
    decreases |pages|
  {
    if pages == [] || pages[0].None? || |pages[0].value| < PageSize then 1
    else 1 + DrainFetches(pages[1..])
  }

  /** The number of products on the given pages (a failed page counts none). */
  function PageTotal(pages: Pages): nat
    decreases |pages|
  {
    if pages == [] then 0
    else (if pages[0].Some? then |pages[0].value| else 0) + PageTotal(pages[1..])
  }

  /** One request of the walk, from page index `k`: what it returns and how many requests remain. */
  lemma DrainStep(collection: string, pages: Pages, k: nat)
    requires k <= |pages|
    ensures var rest := pages[k..];
      var r := JsonPage(collection, pages, k + 1);
      && (r.None? || r.value == [] ==> Drain(collection, rest) == [] && DrainFetches(rest) == 1)
      && (r.Some? && 0 < |r.value| < PageSize ==> Drain(collection, rest) == r.value && DrainFetches(rest) == 1)
      && (r.Some? && |r.value| >= PageSize ==>
            && k < |pages|
            && Drain(collection, rest) == r.value + Drain(collection, pages[k + 1..])
            && DrainFetches(rest) == 1 + DrainFetches(pages[k + 1..]))
  {
    if k < |pages| {
      assert pages[k..][0] == pages[k];
      assert pages[k..][1..] == pages[k + 1..];
    }
  }

  /** `fetch_all_products(collection)` */
  method FetchAllProducts(collection: string, pages: Pages) returns (all: seq<Item>, fetches: nat)
    ensures all == Drain(collection, pages)
    ensures fetches == DrainFetches(pages)
  {
    all := [];
    fetches := 0;
    var page := 1;
    while true
      invariant 1 <= page <= |pages| + 1
      invariant all + Drain(collection, pages[page - 1..]) == Drain(collection, pages)
      invariant fetches + DrainFetches(pages[page - 1..]) == DrainFetches(pages)
      decreases |pages| + 1 - page
    {
      var products := FetchProductsJson(collection, pages, page);
      DrainStep(collection, pages, page - 1);
      fetches := fetches + 1;
      if products.None? || products.value == [] {
        break;
      }
      if |products.value| < PageSize {
        all := all + products.value;
        break;
      }
      ConcatAssoc(all, products.value, Drain(collection, pages[page..]));
      all := all + products.value;
      page := page + 1;
    }
  }

  /**
   * The walk stops at the first page that failed, was empty or was short:
   * it makes exactly one request per page up to that one, returns every
   * product on those pages, and never looks at a later page.
   */
  lemma {:induction false} DrainStops(collection: string, pages: Pages, k: nat)
    requires k < |pages|
    requires forall j :: 0 <= j < k ==> pages[j].Some? && |pages[j].value| >= PageSize
    requires pages[k].None? || |pages[k].value| < PageSize
    ensures Drain(collection, pages) == Drain(collection, pages[..k + 1])
    ensures |Drain(collection, pages)| == PageTotal(pages[..k + 1])
    ensures DrainFetches(pages) == k + 1
    decreases k
  {
    assert pages[..k + 1][0] == pages[0];
    if k > 0 {
      assert pages[..k + 1][1..] == pages[1..][..k];
      DrainStops(collection, pages[1..], k - 1);
    }
  }

  /** Pages of 250, 250 and 10 products give 510 products in 3 requests. */
  lemma DrainThreePages(collection: string, pages: Pages)
    requires |pages| >= 3
    requires pages[0].Some? && |pages[0].value| == 250
    requires pages[1].Some? && |pages[1].value| == 250
    requires pages[2].Some? && |pages[2].value| == 10
    ensures |Drain(collection, pages)| == 510 && DrainFetches(pages) == 3
  {
    DrainStops(collection, pages, 2);
    var p3 := pages[..3];
    assert p3[1..][1..][1..] == [];
    assert PageTotal(p3[1..][1..]) == 10;
    assert PageTotal(p3[1..]) == 260;
  }

  /** A full page followed by an empty one gives 250 products in 2 requests. */
  lemma DrainFullThenEmpty(collection: string, pages: Pages)
    requires |pages| >= 2
    requires pages[0].Some? && |pages[0].value| == 250
    requires pages[1] == Some([])
    ensures |Drain(collection, pages)| == 250 && DrainFetches(pages) == 2
  {
    DrainStops(collection, pages, 1);
    assert pages[..2][1..][1..] == [];
  }

  // ───────────── get_latest_products(days) ─────────────

  /** The products collected so far and `seen_handles`. */
  datatype Window = Window(items: seq<Item>, handles: set<string>)

  /** The state while scanning one page: the window, `found_old`, and whether parsing a timestamp raised. */
  datatype PageScan = PageScan(window: Window, foundOld: bool, failed: bool)

  /** The inner `for p in products` loop from product `j` on. */
  function ScanPage(collection: string, ps: seq<RawProduct>, j: nat, acc: PageScan,
                    cutoff: int, parse: string -> Option<int>): PageScan
    requires j <= |ps|
    decreases |ps| - j
  {
    if j == |ps| then acc
    else
      var p := ps[j];
      var handle, created := OrEmpty(p.handle), OrEmpty(p.createdAt);
      if handle in acc.window.handles || created == "" then ScanPage(collection, ps, j + 1, acc, cutoff, parse)
      else match parse(created)
        case None => acc.(failed := true)
        case Some(t) =>
          if t < cutoff then ScanPage(collection, ps, j + 1, acc.(foundOld := true), cutoff, parse)
          else
            var w := Window(acc.window.items + [Normalize(collection, p)], acc.window.handles + {handle});
            ScanPage(collection, ps, j + 1, acc.(window := w), cutoff, parse)
  }

  /** The `while True` page loop for one collection, from page index `k` on. */
  function WindowPages(collection: string, pages: Pages, k: nat, w: Window,
                       cutoff: int, parse: string -> Option<int>): Window
    decreases |pages| - k
  {
    if k >= |pages| || pages[k].None? || pages[k].value == [] then w
    else
      var r := ScanPage(collection, pages[k].value, 0, PageScan(w, false, false), cutoff, parse);
      if r.failed || r.foundOld || |pages[k].value| < WindowPageSize then r.window
      else WindowPages(collection, pages, k + 1, r.window, cutoff, parse)
  }

  /** The `for collection in COLLECTIONS` loop from collection `i` on. */
  function WindowFrom(recent: string -> Pages, i: nat, w: Window,
                      cutoff: int, parse: string -> Option<int>): Window
    decreases |Collections| - i
  {
    if i >= |Collections| then w
    else WindowFrom(recent, i + 1, WindowPages(Collections[i], recent(Collections[i]), 0, w, cutoff, parse), cutoff, parse)
  }

  /** What `get_latest_products` returns for a cutoff. */
  function WindowQuery(recent: string -> Pages, cutoff: int, parse: string -> Option<int>): seq<Item> {
    SortNewestFirst(WindowFrom(recent, 0, Window([], {}), cutoff, parse).items)
  }

  /** A kept product has a `created_at` that parses to a time no older than the cutoff. */
  predicate InWindow(p: Item, cutoff: int, parse: string -> Option<int>) {
    p.createdAt != "" && parse(p.createdAt).Some? && parse(p.createdAt).value >= cutoff
  }

  predicate WindowOk(w: Window, cutoff: int, parse: string -> Option<int>) {
    && (forall p :: p in w.items ==> InWindow(p, cutoff, parse))
    && DistinctHandles(w.items)
    && HandleSet(w.items) == w.handles
  }

  lemma {:induction false} ScanPageOk(collection: string, ps: seq<RawProduct>, j: nat, acc: PageScan,
                                      cutoff: int, parse: string -> Option<int>)
    requires j <= |ps| && WindowOk(acc.window, cutoff, parse)
    ensures WindowOk(ScanPage(collection, ps, j, acc, cutoff, parse).window, cutoff, parse)
    decreases |ps| - j
  {
    if j < |ps| {
      var p := ps[j];
      var handle, created := OrEmpty(p.handle), OrEmpty(p.createdAt);
      if handle in acc.window.handles || created == "" {
        ScanPageOk(collection, ps, j + 1, acc, cutoff, parse);
      } else if parse(created).Some? {
        if parse(created).value < cutoff {
          ScanPageOk(collection, ps, j + 1, acc.(foundOld := true), cutoff, parse);
        } else {
          var x := Normalize(collection, p);
          var w := Window(acc.window.items + [x], acc.window.handles + {handle});
          HandleSetSnoc(acc.window.items, x);
          assert x.handle !in HandleSet(acc.window.items);
          assert WindowOk(w, cutoff, parse);
          ScanPageOk(collection, ps, j + 1, acc.(window := w), cutoff, parse);
        }
      }
    }
  }

  lemma {:induction false} WindowPagesOk(collection: string, pages: Pages, k: nat, w: Window,
                                         cutoff: int, parse: string -> Option<int>)
    requires WindowOk(w, cutoff, parse)
    ensures WindowOk(WindowPages(collection, pages, k, w, cutoff, parse), cutoff, parse)
    decreases |pages| - k
  {
    if !(k >= |pages| || pages[k].None? || pages[k].value == []) {
      ScanPageOk(collection, pages[k].value, 0, PageScan(w, false, false), cutoff, parse);
      var r := ScanPage(collection, pages[k].value, 0, PageScan(w, false, false), cutoff, parse);
      if !(r.failed || r.foundOld || |pages[k].value| < WindowPageSize) {
        WindowPagesOk(collection, pages, k + 1, r.window, cutoff, parse);
      }
    }
  }

  lemma {:induction false} WindowFromOk(recent: string -> Pages, i: nat, w: Window,
                                        cutoff: int, parse: string -> Option<int>)
    requires WindowOk(w, cutoff, parse)
    ensures WindowOk(WindowFrom(recent, i, w, cutoff, parse), cutoff, parse)
    decreases |Collections| - i
  {
    if i < |Collections| {
      WindowPagesOk(Collections[i], recent(Collections[i]), 0, w, cutoff, parse);
      WindowFromOk(recent, i + 1, WindowPages(Collections[i], recent(Collections[i]), 0, w, cutoff, parse), cutoff, parse);
    }
  }

  /**
   * Every product the time-window query returns has a `created_at` that
   * parses to a time no older than the cutoff; no handle appears twice,
   * even across collections; the list is newest first; and it holds
   * exactly what the walk collected.
   */
  lemma WindowQuerySound(recent: string -> Pages, cutoff: int, parse: string -> Option<int>)
    ensures var r, w := WindowQuery(recent, cutoff, parse), WindowFrom(recent, 0, Window([], {}), cutoff, parse);
      && (forall p :: p in r ==> InWindow(p, cutoff, parse))
      && DistinctHandles(r)
      && SortedNewestFirst(r)
      && multiset(r) == multiset(w.items)
  {
    var w := WindowFrom(recent, 0, Window([], {}), cutoff, parse);
    assert HandleSet([]) == {};
    WindowFromOk(recent, 0, Window([], {}), cutoff, parse);
    SortKeepsDistinct(w.items);
    var r := SortNewestFirst(w.items);
    forall p | p in r ensures InWindow(p, cutoff, parse) {
      assert p in multiset(r);
    }
  }

  /**
   * Paging a collection stops at a page that failed or was short (empty
   * included): the pages after it are never consulted.
   */
  lemma {:induction false} WindowPagesStop(collection: string, pages: Pages, k: nat, m: nat, w: Window,
                                           cutoff: int, parse: string -> Option<int>)
    requires m <= k < |pages|
    requires pages[k].None? || |pages[k].value| < WindowPageSize
    ensures WindowPages(collection, pages, m, w, cutoff, parse) == WindowPages(collection, pages[..k + 1], m, w, cutoff, parse)
    decreases k - m
  {
    assert pages[..k + 1][m] == pages[m];
    if m < k && !(pages[m].None? || pages[m].value == []) {
      var r := ScanPage(collection, pages[m].value, 0, PageScan(w, false, false), cutoff, parse);
      WindowPagesStop(collection, pages, k, m + 1, r.window, cutoff, parse);
    }
  }

  /** A raw product whose `created_at` is present and parses to a time no older than the cutoff. */
  predicate RawInWindow(p: RawProduct, cutoff: int, parse: string -> Option<int>) {
    var created := OrEmpty(p.createdAt);
    created != "" && parse(created).Some? && parse(created).value >= cutoff
  }

  /** No product in `ps[j..i]` has a `created_at` that fails to parse. */
  predicate NoParseFailure(ps: seq<RawProduct>, j: nat, i: nat, parse: string -> Option<int>)
    requires j <= i <= |ps|
  {
    forall k :: j <= k < i ==> OrEmpty(ps[k].createdAt) == "" || parse(OrEmpty(ps[k].createdAt)).Some?
  }

  /**
   * Scanning a page only adds to the window: what was collected stays, in
   * place. The scan fails only at a timestamp that does not parse, and
   * nothing is missed: every product of the page met before such a
   * timestamp that lies in the window ends up with its handle collected.
   */
  lemma {:induction false} ScanPageComplete(collection: string, ps: seq<RawProduct>, j: nat, acc: PageScan,
                                            cutoff: int, parse: string -> Option<int>)
    requires j <= |ps|
    ensures var r := ScanPage(collection, ps, j, acc, cutoff, parse);
      && acc.window.handles <= r.window.handles
      && |acc.window.items| <= |r.window.items| && r.window.items[..|acc.window.items|] == acc.window.items
      && (NoParseFailure(ps, j, |ps|, parse) ==> r.failed == acc.failed)
      && (forall i :: j <= i < |ps| && NoParseFailure(ps, j, i, parse) && RawInWindow(ps[i], cutoff, parse)
            ==> OrEmpty(ps[i].handle) in r.window.handles)
    decreases |ps| - j
  {
    if j < |ps| {
      var p := ps[j];
      var handle, created := OrEmpty(p.handle), OrEmpty(p.createdAt);
      var next: PageScan;
      if handle in acc.window.handles || created == "" {
        next := acc;
      } else if parse(created).None? {
        return;
      } else if parse(created).value < cutoff {
        next := acc.(foundOld := true);
      } else {
        next := acc.(window := Window(acc.window.items + [Normalize(collection, p)], acc.window.handles + {handle}));
      }
      assert ScanPage(collection, ps, j, acc, cutoff, parse) == ScanPage(collection, ps, j + 1, next, cutoff, parse);
      ScanPageComplete(collection, ps, j + 1, next, cutoff, parse);
      assert next.window.items[..|acc.window.items|] == acc.window.items;
      assert NoParseFailure(ps, j, |ps|, parse) ==> NoParseFailure(ps, j + 1, |ps|, parse);
      forall i | j < i < |ps| && NoParseFailure(ps, j, i, parse)
        ensures NoParseFailure(ps, j + 1, i, parse)
      {
      }
    }
  }

  /**
   * The window with which the page loop of a collection starts page `m`,
   * or `None` when the loop stops before it gets there.
   */
  function Reached(collection: string, pages: Pages, m: nat, w: Window,
                   cutoff: int, parse: string -> Option<int>): Option<Window>
    decreases m
  {
    if m == 0 then Some(w)
    else match Reached(collection, pages, m - 1, w, cutoff, parse)
      case None => None
      case Some(v) =>
        if m - 1 >= |pages| || pages[m - 1].None? || pages[m - 1].value == [] then None
        else
          var r := ScanPage(collection, pages[m - 1].value, 0, PageScan(v, false, false), cutoff, parse);
          if r.failed || r.foundOld || |pages[m - 1].value| < WindowPageSize then None else Some(r.window)
  }

  /** Once the loop reaches page `m`, the rest of the walk is the loop resumed there. */
  lemma {:induction false} ReachedResume(collection: string, pages: Pages, m: nat, w: Window,
                                         cutoff: int, parse: string -> Option<int>)
    requires Reached(collection, pages, m, w, cutoff, parse).Some?
    ensures WindowPages(collection, pages, 0, w, cutoff, parse)
         == WindowPages(collection, pages, m, Reached(collection, pages, m, w, cutoff, parse).value, cutoff, parse)
    decreases m
  {
    if m > 0 {
      ReachedResume(collection, pages, m - 1, w, cutoff, parse);
    }
  }

  /** Which pages the loop reaches depends only on the pages before them. */
  lemma {:induction false} ReachedPrefix(collection: string, pages: Pages, n: nat, m: nat, w: Window,
                                         cutoff: int, parse: string -> Option<int>)
    requires m <= n <= |pages|
    ensures Reached(collection, pages[..n], m, w, cutoff, parse) == Reached(collection, pages, m, w, cutoff, parse)
    decreases m
  {
    if m > 0 {
      ReachedPrefix(collection, pages, n, m - 1, w, cutoff, parse);
      assert pages[..n][m - 1] == pages[m - 1];
    }
  }

  /** Paging a collection only adds to the window: what was collected before stays, in place. */
  lemma {:induction false} WindowPagesGrows(collection: string, pages: Pages, k: nat, w: Window,
                                            cutoff: int, parse: string -> Option<int>)
    ensures var r := WindowPages(collection, pages, k, w, cutoff, parse);
      && w.handles <= r.handles
      && |w.items| <= |r.items| && r.items[..|w.items|] == w.items
    decreases |pages| - k
  {
    if !(k >= |pages| || pages[k].None? || pages[k].value == []) {
      var scan := ScanPage(collection, pages[k].value, 0, PageScan(w, false, false), cutoff, parse);
      ScanPageComplete(collection, pages[k].value, 0, PageScan(w, false, false), cutoff, parse);
      if !(scan.failed || scan.foundOld || |pages[k].value| < WindowPageSize) {
        WindowPagesGrows(collection, pages, k + 1, scan.window, cutoff, parse);
        var r := WindowPages(collection, pages, k + 1, scan.window, cutoff, parse);
        assert r.items[..|w.items|] == r.items[..|scan.window.items|][..|w.items|];
      }
    }
  }

  /**
   * Nothing is missed on a page the loop reads: every product on it that
   * lies in the window, up to the first timestamp that fails to parse,
   * has its handle collected by the collection's walk.
   */
  lemma WindowPagesComplete(collection: string, pages: Pages, m: nat, w: Window,
                            cutoff: int, parse: string -> Option<int>)
    requires Reached(collection, pages, m, w, cutoff, parse).Some? && m < |pages| && pages[m].Some?
    ensures var ps := pages[m].value;
      forall i :: 0 <= i < |ps| && NoParseFailure(ps, 0, i, parse) && RawInWindow(ps[i], cutoff, parse)
        ==> OrEmpty(ps[i].handle) in WindowPages(collection, pages, 0, w, cutoff, parse).handles
  {
    var v := Reached(collection, pages, m, w, cutoff, parse).value;
    ReachedResume(collection, pages, m, w, cutoff, parse);
    var ps := pages[m].value;
    if ps != [] {
      var scan := ScanPage(collection, ps, 0, PageScan(v, false, false), cutoff, parse);
      ScanPageComplete(collection, ps, 0, PageScan(v, false, false), cutoff, parse);
      if !(scan.failed || scan.foundOld || |ps| < WindowPageSize) {
        WindowPagesGrows(collection, pages, m + 1, scan.window, cutoff, parse);
      }
    }
  }

  /**
   * A page whose scan meets an out-of-window product, or a timestamp that
   * does not parse, or that is short, is the last page the loop reads:
   * the collection's walk ends with the window after that page, and the
   * pages after it are never consulted.
   */
  lemma WindowStopsAt(collection: string, pages: Pages, m: nat, w: Window,
                      cutoff: int, parse: string -> Option<int>)
    requires Reached(collection, pages, m, w, cutoff, parse).Some? && m < |pages| && pages[m].Some? && pages[m].value != []
    requires var r := ScanPage(collection, pages[m].value, 0, PageScan(Reached(collection, pages, m, w, cutoff, parse).value, false, false), cutoff, parse);
      r.failed || r.foundOld || |pages[m].value| < WindowPageSize
    ensures WindowPages(collection, pages, 0, w, cutoff, parse)
         == ScanPage(collection, pages[m].value, 0, PageScan(Reached(collection, pages, m, w, cutoff, parse).value, false, false), cutoff, parse).window
    ensures WindowPages(collection, pages, 0, w, cutoff, parse) == WindowPages(collection, pages[..m + 1], 0, w, cutoff, parse)
  {
    ReachedResume(collection, pages, m, w, cutoff, parse);
    ReachedPrefix(collection, pages, m + 1, m, w, cutoff, parse);
    ReachedResume(collection, pages[..m + 1], m, w, cutoff, parse);
    assert pages[..m + 1][m] == pages[m];
  }

  /** The window with which the collection loop starts collection `j`. */
  function Before(recent: string -> Pages, j: nat, w: Window, cutoff: int, parse: string -> Option<int>): Window
    requires j <= |Collections|
  {
    if j == 0 then w
    else WindowPages(Collections[j - 1], recent(Collections[j - 1]), 0, Before(recent, j - 1, w, cutoff, parse), cutoff, parse)
  }

  /**
   * Every collection is walked from its first page, however the walks
   * before it ended: the query is the loop resumed at any collection
   * with the window the earlier ones left.
   */
  lemma {:induction false} EveryCollectionWalked(recent: string -> Pages, j: nat, w: Window,
                                                 cutoff: int, parse: string -> Option<int>)
    requires j <= |Collections|
    ensures WindowFrom(recent, 0, w, cutoff, parse) == WindowFrom(recent, j, Before(recent, j, w, cutoff, parse), cutoff, parse)
    decreases j
  {
    if j > 0 {
      EveryCollectionWalked(recent, j - 1, w, cutoff, parse);
    }
  }

  /** A collection whose first request fails or is empty adds nothing, and the next one starts from the same window. */
  lemma FailedCollectionSkipped(recent: string -> Pages, j: nat, w: Window, cutoff: int, parse: string -> Option<int>)
    requires j < |Collections|
    requires var pages := recent(Collections[j]); pages == [] || pages[0].None? || pages[0].value == []
    ensures Before(recent, j + 1, w, cutoff, parse) == Before(recent, j, w, cutoff, parse)
  {
  }

  /** The collection loop only adds to the window. */
  lemma {:induction false} WindowFromGrows(recent: string -> Pages, i: nat, w: Window,
                                           cutoff: int, parse: string -> Option<int>)
    ensures w.handles <= WindowFrom(recent, i, w, cutoff, parse).handles
    decreases |Collections| - i
  {
    if i < |Collections| {
      WindowPagesGrows(Collections[i], recent(Collections[i]), 0, w, cutoff, parse);
      WindowFromGrows(recent, i + 1, WindowPages(Collections[i], recent(Collections[i]), 0, w, cutoff, parse), cutoff, parse);
    }
  }

  /**
   * The time-window query misses nothing it reads: for every collection
   * and every page its loop reaches, each product on that page that lies
   * in the window, up to the first timestamp that fails to parse, is
   * returned (the product itself, or the one with its handle collected first).
   */
  lemma WindowQueryComplete(recent: string -> Pages, j: nat, m: nat, cutoff: int, parse: string -> Option<int>)
    requires j < |Collections|
    requires var pages := recent(Collections[j]);
      Reached(Collections[j], pages, m, Before(recent, j, Window([], {}), cutoff, parse), cutoff, parse).Some?
      && m < |pages| && pages[m].Some?
    ensures var ps := recent(Collections[j])[m].value;
      forall i :: 0 <= i < |ps| && NoParseFailure(ps, 0, i, parse) && RawInWindow(ps[i], cutoff, parse)
        ==> OrEmpty(ps[i].handle) in HandleSet(WindowQuery(recent, cutoff, parse))
  {
    var start := Window([], {});
    var pages := recent(Collections[j]);
    var v := Before(recent, j, start, cutoff, parse);
    WindowPagesComplete(Collections[j], pages, m, v, cutoff, parse);
    EveryCollectionWalked(recent, j + 1, start, cutoff, parse);
    WindowFromGrows(recent, j + 1, Before(recent, j + 1, start, cutoff, parse), cutoff, parse);
    var w := WindowFrom(recent, 0, start, cutoff, parse);
    assert HandleSet([]) == {};
    WindowFromOk(recent, 0, start, cutoff, parse);
    WindowQuerySound(recent, cutoff, parse);
    var r := WindowQuery(recent, cutoff, parse);
    forall x | x in w.items ensures x in r {
      assert x in multiset(w.items);
    }
  }

  /** The page of the seven-day example: products created ten days, three days and one hour before `now`. */
  function ExamplePage(): seq<RawProduct> {
    [RawProduct(Some("a"), None, None, None, Some("2024-06-05T12:00:00Z")),
     RawProduct(Some("b"), None, None, None, Some("2024-06-12T12:00:00Z")),
     RawProduct(Some("c"), None, None, None, Some("2024-06-15T11:00:00Z"))]
  }

  /** The first collection serves the example page; the others serve nothing. */
  function ExampleRecent(): string -> Pages {
    (c: string) => if c == Collections[0] then [Some(ExamplePage())] else []
  }

  predicate ExampleClock(now: int, parse: string -> Option<int>) {
    && parse("2024-06-05T12:00:00Z") == Some(now - 10 * DaySeconds)
    && parse("2024-06-12T12:00:00Z") == Some(now - 3 * DaySeconds)
    && parse("2024-06-15T11:00:00Z") == Some(now - 3600)
  }

  /** Scanning the example page skips the old product and keeps the other two, in page order. */
  lemma ExampleScan(now: int, parse: string -> Option<int>)
    requires ExampleClock(now, parse)
    ensures var ps := ExamplePage();
      ScanPage(Collections[0], ps, 0, PageScan(Window([], {}), false, false), now - 7 * DaySeconds, parse)
        == PageScan(Window([Normalize(Collections[0], ps[1]), Normalize(Collections[0], ps[2])], {"b", "c"}), true, false)
  {
    var ps, cutoff := ExamplePage(), now - 7 * DaySeconds;
    var x, y := Normalize(Collections[0], ps[1]), Normalize(Collections[0], ps[2]);
    var s1 := PageScan(Window([], {}), true, false);
    var s2 := PageScan(Window([x], {"b"}), true, false);
    var s3 := PageScan(Window([x, y], {"b", "c"}), true, false);
    assert "c" !in {"b"};
    assert ScanPage(Collections[0], ps, 2, s2, cutoff, parse) == ScanPage(Collections[0], ps, 3, s3, cutoff, parse);
    assert ScanPage(Collections[0], ps, 1, s1, cutoff, parse) == ScanPage(Collections[0], ps, 2, s2, cutoff, parse);
  }

  /** The example's timestamps sort as their times do. */
  lemma ExampleStampsOrdered()
    ensures Less("2024-06-12T12:00:00Z", "2024-06-15T11:00:00Z")
  {
    LessAtFirstDifference("2024-06-12T12:00:00Z", "2024-06-15T11:00:00Z", 9);
  }

  /**
   * The seven-day query over the example returns exactly the two products
   * inside the window, newest first.
   */
  lemma WeekQueryExample(now: int, parse: string -> Option<int>)
    requires ExampleClock(now, parse)
    ensures var ps := ExamplePage();
      WindowQuery(ExampleRecent(), now - 7 * DaySeconds, parse) == [Normalize(Collections[0], ps[2]), Normalize(Collections[0], ps[1])]
  {
    var ps, recent, cutoff := ExamplePage(), ExampleRecent(), now - 7 * DaySeconds;
    var x, y := Normalize(Collections[0], ps[1]), Normalize(Collections[0], ps[2]);
    ExampleScan(now, parse);
    assert WindowPages(Collections[0], recent(Collections[0]), 0, Window([], {}), cutoff, parse) == Window([x, y], {"b", "c"});
    assert WindowFrom(recent, 0, Window([], {}), cutoff, parse) == Window([x, y], {"b", "c"});
    ExampleStampsOrdered();
    SortTwo(x, y);
  }

  /** The `for p in products` loop of `get_latest_products` over one page. */
  method ScanProducts(collection: string, ps: seq<RawProduct>, w: Window, cutoff: int, parse: string -> Option<int>)
    returns (scan: PageScan)
    ensures scan == ScanPage(collection, ps, 0, PageScan(w, false, false), cutoff, parse)
  {
    var all, seenHandles := w.items, w.handles;
    var foundOld := false;
    var j := 0;
    while j < |ps|
      invariant 0 <= j <= |ps|
      invariant ScanPage(collection, ps, j, PageScan(Window(all, seenHandles), foundOld, false), cutoff, parse)
             == ScanPage(collection, ps, 0, PageScan(w, false, false), cutoff, parse)
    {
      var p := ps[j];
      var handle := OrEmpty(p.handle);
      if handle in seenHandles {
        j := j + 1;
        continue;
      }
      var created := OrEmpty(p.createdAt);
      if created == "" {
        j := j + 1;
        continue;
      }
      var t := parse(created);
      if t.None? {
        return PageScan(Window(all, seenHandles), foundOld, true);
      }
      if t.value < cutoff {
        foundOld := true;
        j := j + 1;
        continue;
      }
      seenHandles := seenHandles + {handle};
      all := all + [Normalize(collection, p)];
      j := j + 1;
    }
    scan := PageScan(Window(all, seenHandles), foundOld, false);
  }

  /** The `while True` page loop of `get_latest_products` for one collection. */
  method CollectWindow(collection: string, pages: Pages, w: Window, cutoff: int, parse: string -> Option<int>)
    returns (w': Window)
    ensures w' == WindowPages(collection, pages, 0, w, cutoff, parse)
  {
    w' := w;
    var page := 1;
    while true
      invariant 1 <= page <= |pages| + 1
      invariant WindowPages(collection, pages, page - 1, w', cutoff, parse) == WindowPages(collection, pages, 0, w, cutoff, parse)
      decreases |pages| + 1 - page
    {
      if page - 1 >= |pages| || pages[page - 1].None? || pages[page - 1].value == [] {
        break;
      }
      var ps := pages[page - 1].value;
      var scan := ScanProducts(collection, ps, w', cutoff, parse);
      w' := scan.window;
      if scan.failed || scan.foundOld || |ps| < WindowPageSize {
        break;
      }
      page := page + 1;
    }
  }

  /** `get_latest_products(days)`, with `datetime.now()` given as `now` and `fromisoformat` as `parse`. */
  method GetLatestProducts(recent: string -> Pages, now: int, days: int, parse: string -> Option<int>)
    returns (products: seq<Item>)
    ensures products == WindowQuery(recent, now - days * DaySeconds, parse)
    ensures forall p :: p in products ==> InWindow(p, now - days * DaySeconds, parse)
    ensures DistinctHandles(products) && SortedNewestFirst(products)
  {
    var cutoff := now - days * DaySeconds;
    var w := Window([], {});
    for i := 0 to |Collections|
      invariant WindowFrom(recent, i, w, cutoff, parse) == WindowFrom(recent, 0, Window([], {}), cutoff, parse)
    {
      var collection := Collections[i];
      w := CollectWindow(collection, recent(collection), w, cutoff, parse);
    }
    products := SortNewestFirst(w.items);
    WindowQuerySound(recent, cutoff, parse);
  }

  // ───────────── send_product / check_new_products ─────────────

  /** Everything `fetch_all_products` returns for the first `n` collections, in collection order. */
  function Fetched(full: string -> Pages, n: nat): seq<Item>
    requires n <= |Collections|
  {
    if n == 0 then [] else Fetched(full, n - 1) + Drain(Collections[n - 1], full(Collections[n - 1]))
  }

  /** One more collection adds everything its pages yield. */
  lemma FetchedNext(full: string -> Pages, i: nat)
    requires i < |Collections|
    ensures Fetched(full, i + 1) == Fetched(full, i) + Drain(Collections[i], full(Collections[i]))
  {
  }

  const SummaryHead := "\U{2705} Bot started! Monitoring 4 collections.\n\U{1F4E6} Indexed "
  const SummaryTail := " existing products.\n\nYou'll get notified when something new drops.\nSend /latest to see 4 most recent products."

  function SummaryText(count: nat): string {
    SummaryHead + NatToString(count) + SummaryTail
  }

  /** What a pass sends: the summary on a first run, otherwise one notice per new product. */
  function PassMessages(firstRun: bool, found: seq<Item>, photoOk: string -> bool): seq<Event> {
    if firstRun then [SendMessage(ConfiguredChat, SummaryText(|found|))]
    else NoticeAll(NoticeStyle, found, ConfiguredChat, photoOk)
  }

  /**
   * A first run sends exactly one message, the summary with the number of
   * products indexed, and no notice; any other run sends one notice per
   * new product, in the order found, to the configured chat.
   */
  lemma PassMessagesShape(firstRun: bool, found: seq<Item>, photoOk: string -> bool)
    ensures var sent := PassMessages(firstRun, found, photoOk);
      && (firstRun ==> sent == [SendMessage(ConfiguredChat, SummaryText(|found|))])
      && (!firstRun ==>
            && |sent| == |found|
            && forall k :: 0 <= k < |found| ==> sent[k] == Notice(NoticeStyle, found[k], ConfiguredChat, photoOk))
      && (forall e :: e in sent ==> e.to == ConfiguredChat)
  {
    var sent := PassMessages(firstRun, found, photoOk);
    forall e | e in sent ensures e.to == ConfiguredChat {
      if !firstRun {
        var k :| 0 <= k < |sent| && sent[k] == e;
      }
    }
  }

  /**
   * A second pass over an unchanged catalog finds nothing and changes
   * nothing; it sends nothing, unless the first pass left the set empty, in
   * which case it is again a first run and sends the summary of 0.
   */
  lemma SecondPassQuiet(seen: set<string>, fetched: seq<Item>, photoOk: string -> bool)
    ensures var first := Detect(seen, fetched);
      var second := Detect(first.seen, fetched);
      && second == Pass(first.seen, [])
      && PassMessages(first.seen == {}, second.found, photoOk)
         == (if first.seen == {} then [SendMessage(ConfiguredChat, SummaryText(0))] else [])
  {
    DetectIdempotent(seen, fetched);
  }

  // ───────────── handle_command ─────────────

  datatype Command = Day | Week | Start | Status | Unknown

  /** `text.strip().lower().split("@")[0]` */
  function NormalizeCommand(text: string): string {
    BeforeAt(Lower(Strip(text)))
  }

  function ParseCommand(text: string): Command {
    var cmd := NormalizeCommand(text);
    if cmd == "/day" then Day
    else if cmd == "/week" then Week
    else if cmd == "/start" then Start
    else if cmd == "/status" then Status
    else Unknown
  }

  /**
   * A command addressed to the bot (`/cmd@botname`) is read as `/cmd`,
   * and in lower case: the suffix after the first '@' is ignored.
   */
  lemma CommandIgnoresBotSuffix(cmd: string, bot: string)
    requires cmd != [] && !IsSpace(cmd[0]) && !IsSpace(cmd[|cmd| - 1]) && '@' !in cmd
    ensures NormalizeCommand(cmd + "@" + bot) == NormalizeCommand(cmd) == Lower(cmd)
  {
    var t := Strip(cmd + "@" + bot);
    StripKeepsHead(cmd, bot);
    var rest := t[|cmd| + 1..];
    LowerAroundAt(cmd, rest);
    LowerKeepsNoAt(cmd);
    BeforeAtFirst(Lower(cmd), Lower(rest));
    StripUnpadded(cmd);
  }

  const HelpText :=
    "\U{1F44B} I monitor new products on CIRCUS by MANIAC.\n\n/day \U{2014} products added today\n"
    + "/week \U{2014} products added this week\n/status \U{2014} bot info\n\nNew drops are sent automatically."

  const StatusHead := "\U{1F4CA} Tracking "
  const StatusMiddle := " products across 4 collections.\nChecking every "
  const StatusTail := " minutes."

  function StatusText(tracked: nat): string {
    StatusHead + NatToString(tracked) + StatusMiddle + NatToString(CheckInterval / 60) + StatusTail
  }

  const DayOpening := "\U{1F50D} Fetching products added today..."
  const DayNothing := "No new products today."
  const DaySpan := "from today:"
  const WeekOpening := "\U{1F50D} Fetching products added this week..."
  const WeekNothing := "No new products this week."
  const WeekSpan := "from the last 7 days:"

  function FoundText(count: nat, span: string): string {
    "Found " + NatToString(count) + " products " + span
  }

  /** The replies to /day or /week: an opening line, then either "none" or a count followed by one notice per product. */
  function QueryReplies(to: Chat, opening: string, nothing: string, span: string,
                        products: seq<Item>, photoOk: string -> bool): seq<Event> {
    if products == [] then [SendMessage(to, opening), SendMessage(to, nothing)]
    else [SendMessage(to, opening), SendMessage(to, FoundText(|products|, span))] + NoticeAll(NoticeStyle, products, to, photoOk)
  }

  /** The sending half of the /day and /week branches. */
  method QueryAnswer(to: Chat, opening: string, nothing: string, span: string,
                     products: seq<Item>, photoOk: string -> bool) returns (sent: seq<Event>)
    ensures sent == QueryReplies(to, opening, nothing, span, products, photoOk)
  {
    sent := [SendMessage(to, opening)];
    if products == [] {
      sent := sent + [SendMessage(to, nothing)];
    } else {
      sent := sent + [SendMessage(to, FoundText(|products|, span))];
      assert sent == [SendMessage(to, opening), SendMessage(to, FoundText(|products|, span))];
      var notices := SendEach(NoticeStyle, products, to, photoOk);
      sent := sent + notices;
    }
  }

  lemma QueryRepliesTo(to: Chat, opening: string, nothing: string, span: string,
                       products: seq<Item>, photoOk: string -> bool)
    ensures var sent := QueryReplies(to, opening, nothing, span, products, photoOk);
      && |sent| == 2 + |products|
      && (forall e :: e in sent ==> e.to == to)
  {
    NoticeAllTo(NoticeStyle, products, to, photoOk);
  }

  /** What `handle_command` sends for a parsed command. */
  function CommandReplies(cmd: Command, to: Chat, tracked: nat, recent: string -> Pages, now: int,
                          parse: string -> Option<int>, photoOk: string -> bool): seq<Event> {
    match cmd
    case Day =>
      QueryReplies(to, DayOpening, DayNothing, DaySpan, WindowQuery(recent, now - 1 * DaySeconds, parse), photoOk)
    case Week =>
      QueryReplies(to, WeekOpening, WeekNothing, WeekSpan, WindowQuery(recent, now - 7 * DaySeconds, parse), photoOk)
    case Start => [SendMessage(to, HelpText)]
    case Status => [SendMessage(to, StatusText(tracked))]
    case Unknown => []
  }

  /**
   * Only /day, /week, /start and /status produce replies, all to the
   * asking chat; any other command sends nothing. /start and /status send
   * one message; /day and /week send two plus one notice per product found.
   */
  lemma CommandRepliesShape(cmd: Command, to: Chat, tracked: nat, recent: string -> Pages, now: int,
                            parse: string -> Option<int>, photoOk: string -> bool)
    ensures var sent := CommandReplies(cmd, to, tracked, recent, now, parse, photoOk);
      && (sent == [] <==> cmd == Unknown)
      && (forall e :: e in sent ==> e.to == to)
      && (cmd == Start || cmd == Status ==> |sent| == 1)
      && (cmd == Day ==> |sent| == 2 + |WindowQuery(recent, now - DaySeconds, parse)|)
      && (cmd == Week ==> |sent| == 2 + |WindowQuery(recent, now - 7 * DaySeconds, parse)|)
  {
    match cmd
    case Day => QueryRepliesTo(to, DayOpening, DayNothing, DaySpan, WindowQuery(recent, now - 1 * DaySeconds, parse), photoOk);
    case Week => QueryRepliesTo(to, WeekOpening, WeekNothing, WeekSpan, WindowQuery(recent, now - 7 * DaySeconds, parse), photoOk);
    case Start =>
    case Status =>
    case Unknown =>
  }

  // ───────────── bot_polling_loop, one batch ─────────────

  /** An update goes to `handle_command` when it has a chat and its raw text starts with "/". */
  predicate Dispatched(u: Update) {
    ChatOf(u).Some? && StartsWith(TextOf(u), "/")
  }

  function UpdateReplies(u: Update, tracked: nat, recent: string -> Pages, now: int,
                         parse: string -> Option<int>, photoOk: string -> bool): seq<Event> {
    if Dispatched(u) then CommandReplies(ParseCommand(TextOf(u)), ChatId(ChatOf(u).value), tracked, recent, now, parse, photoOk)
    else []
  }

  /** Everything sent while one batch of updates is processed. */
  function BatchReplies(updates: seq<Update>, tracked: nat, recent: string -> Pages, now: int,
                        parse: string -> Option<int>, photoOk: string -> bool): seq<Event>
    decreases |updates|
  {
    if updates == [] then []
    else
      var n := |updates| - 1;
      BatchReplies(updates[..n], tracked, recent, now, parse, photoOk)
      + UpdateReplies(updates[n], tracked, recent, now, parse, photoOk)
  }

  /** An update that is not dispatched, or whose command is unknown, sends nothing. */
  lemma UpdateSilent(u: Update, tracked: nat, recent: string -> Pages, now: int,
                     parse: string -> Option<int>, photoOk: string -> bool)
    requires !Dispatched(u) || ParseCommand(TextOf(u)) == Unknown
    ensures UpdateReplies(u, tracked, recent, now, parse, photoOk) == []
  {
    if Dispatched(u) {
      CommandRepliesShape(ParseCommand(TextOf(u)), ChatId(ChatOf(u).value), tracked, recent, now, parse, photoOk);
    }
  }

  /** A batch whose updates are not dispatched or are not known commands sends nothing. */
  lemma {:induction false} UnknownCommandsSilent(updates: seq<Update>, tracked: nat, recent: string -> Pages, now: int,
                                                 parse: string -> Option<int>, photoOk: string -> bool)
    requires forall k :: 0 <= k < |updates| ==> !Dispatched(updates[k]) || ParseCommand(TextOf(updates[k])) == Unknown
    ensures BatchReplies(updates, tracked, recent, now, parse, photoOk) == []
    decreases |updates|
  {
    if updates != [] {
      var n := |updates| - 1;
      UnknownCommandsSilent(updates[..n], tracked, recent, now, parse, photoOk);
      UpdateSilent(updates[n], tracked, recent, now, parse, photoOk);
    }
  }

  /** The cursor after a sequence of batches. */
  function CursorAfter(offset: int, batches: seq<seq<Update>>): int
    decreases |batches|
  {
    if batches == [] then offset else CursorAfter(NextOffset(offset, batches[0]), batches[1..])
  }

  /** Each batch was served from the cursor the previous batches left. */
  predicate ServedInOrder(offset: int, batches: seq<seq<Update>>)
    decreases |batches|
  {
    batches == [] || (ServedFrom(offset, batches[0]) && ServedInOrder(NextOffset(offset, batches[0]), batches[1..]))
  }

  /** Every update of a run of batches served in order is at or past the cursor the run started from. */
  lemma {:induction false} ServedAtOrPast(offset: int, batches: seq<seq<Update>>)
    requires ServedInOrder(offset, batches)
    ensures forall j, b :: 0 <= j < |batches| && b in batches[j] ==> b.updateId >= offset
    decreases |batches|
  {
    if batches != [] {
      CursorPastBatch(offset, batches[0]);
      ServedAtOrPast(NextOffset(offset, batches[0]), batches[1..]);
      forall j, b | 0 < j < |batches| && b in batches[j] ensures b.updateId >= offset {
        assert batches[1..][j - 1] == batches[j];
      }
    }
  }

  /** Handling one more batch served in order never moves the cursor back. */
  lemma {:induction false} CursorStepUp(offset: int, batches: seq<seq<Update>>, n: nat)
    requires ServedInOrder(offset, batches) && n < |batches|
    ensures CursorAfter(offset, batches[..n]) <= CursorAfter(offset, batches[..n + 1])
    decreases n
  {
    var next := NextOffset(offset, batches[0]);
    CursorPastBatch(offset, batches[0]);
    assert batches[..n + 1][0] == batches[0] && batches[..n + 1][1..] == batches[1..][..n];
    if n > 0 {
      assert batches[..n][0] == batches[0] && batches[..n][1..] == batches[1..][..n - 1];
      CursorStepUp(next, batches[1..], n - 1);
    }
  }

  /**
   * Over any run of batches the cursor never decreases, neither over the
   * whole run nor from one batch to the next, and no update is served
   * again: every id in a later batch is larger than every id in an
   * earlier one.
   */
  lemma {:induction false} CursorNeverDecreases(offset: int, batches: seq<seq<Update>>)
    requires ServedInOrder(offset, batches)
    ensures CursorAfter(offset, batches) >= offset
    ensures forall n :: 0 <= n < |batches| ==> CursorAfter(offset, batches[..n]) <= CursorAfter(offset, batches[..n + 1])
    ensures forall i, j, a, b :: 0 <= i < j < |batches| && a in batches[i] && b in batches[j] ==> a.updateId < b.updateId
    decreases |batches|
  {
    if batches != [] {
      var next := NextOffset(offset, batches[0]);
      CursorPastBatch(offset, batches[0]);
      CursorNeverDecreases(next, batches[1..]);
      ServedAtOrPast(next, batches[1..]);
      forall n | 0 <= n < |batches|
        ensures CursorAfter(offset, batches[..n]) <= CursorAfter(offset, batches[..n + 1])
      {
        CursorStepUp(offset, batches, n);
      }
      forall i, j, a, b | 0 <= i < j < |batches| && a in batches[i] && b in batches[j]
        ensures a.updateId < b.updateId
      {
        assert batches[1..][j - 1] == batches[j];
        if i > 0 {
          assert batches[1..][i - 1] == batches[i];
        }
      }
    }
  }

  // ───────────── the bot's state ─────────────

  class BotState {
    /** `seen_products` */
    var seen: set<string>
    /** `bot_offset` */
    var offset: int

    constructor ()
      ensures seen == {} && offset == 0
    {
      seen := {};
      offset := 0;
    }

    /** `check_new_products()`, with what every page request answers given in `full`. */
    method CheckNewProducts(full: string -> Pages, photoOk: string -> bool) returns (newProducts: seq<Item>, sent: seq<Event>)
      modifies this`seen
      ensures Pass(seen, newProducts) == Detect(old(seen), Fetched(full, |Collections|))
      ensures sent == PassMessages(old(seen) == {}, newProducts, photoOk)
    {
      var firstRun := |seen| == 0;
      newProducts := MarkAll(full);
      if firstRun {
        sent := [SendMessage(ConfiguredChat, SummaryText(|newProducts|))];
      } else {
        sent := SendEach(NoticeStyle, newProducts, ConfiguredChat, photoOk);
      }
    }

    /** The `for collection in COLLECTIONS` loop of `check_new_products`. */
    method MarkAll(full: string -> Pages) returns (newProducts: seq<Item>)
      modifies this`seen
      ensures Pass(seen, newProducts) == Detect(old(seen), Fetched(full, |Collections|))
    {
      ghost var start := seen;
      newProducts := [];
      for i := 0 to |Collections|
        invariant Pass(seen, newProducts) == Detect(start, Fetched(full, i))
      {
        var collection := Collections[i];
        var products, _ := FetchAllProducts(collection, full(collection));
        FetchedNext(full, i);
        newProducts := MarkNew(start, Fetched(full, i), products, newProducts);
      }
    }

    /**
     * The inner `for p in products` loop of `check_new_products`: the walk so
     * far covered `before`, and now continues over one collection's products.
     */
    method MarkNew(ghost start: set<string>, ghost before: seq<Item>, products: seq<Item>, found: seq<Item>)
      returns (found': seq<Item>)
      modifies this`seen
      requires Pass(seen, found) == Detect(start, before)
      ensures Pass(seen, found') == Detect(start, before + products)
    {
      found' := found;
      assert before + products[..0] == before;
      for j := 0 to |products|
        invariant Pass(seen, found') == Detect(start, before + products[..j])
      {
        var p := products[j];
        AppendNext(before, products, j);
        DetectSnoc(start, before + products[..j], p);
        if p.handle !in seen {
          found' := found' + [p];
          seen := seen + {p.handle};
        }
      }
      assert products[..|products|] == products;
    }

    /** `handle_command(text, chat_id)` */
    method HandleCommand(text: string, chat: int, recent: string -> Pages, now: int,
                         parse: string -> Option<int>, photoOk: string -> bool) returns (sent: seq<Event>)
      ensures sent == CommandReplies(ParseCommand(text), ChatId(chat), |seen|, recent, now, parse, photoOk)
    {
      var to := ChatId(chat);
      match ParseCommand(text)
      case Day =>
        var products := GetLatestProducts(recent, now, 1, parse);
        sent := QueryAnswer(to, DayOpening, DayNothing, DaySpan, products, photoOk);
      case Week =>
        var products := GetLatestProducts(recent, now, 7, parse);
        sent := QueryAnswer(to, WeekOpening, WeekNothing, WeekSpan, products, photoOk);
      case Start =>
        sent := [SendMessage(to, HelpText)];
      case Status =>
        sent := [SendMessage(to, StatusText(|seen|))];
      case Unknown =>
        sent := [];
    }

    /** One iteration of `bot_polling_loop`'s `while True`, for the batch `get_updates` returned. */
    method PollBatch(updates: seq<Update>, recent: string -> Pages, now: int,
                     parse: string -> Option<int>, photoOk: string -> bool) returns (sent: seq<Event>)
      modifies this`offset
      ensures offset == NextOffset(old(offset), updates)
      ensures sent == BatchReplies(updates, |seen|, recent, now, parse, photoOk)
    {
      sent := [];
      for k := 0 to |updates|
        invariant offset == NextOffset(old(offset), updates[..k])
        invariant sent == BatchReplies(updates[..k], |seen|, recent, now, parse, photoOk)
      {
        var update := updates[k];
        offset := update.updateId + 1;
        var text := TextOf(update);
        var chat := ChatOf(update);
        assert updates[..k + 1][..k] == updates[..k];
        if chat.Some? && StartsWith(text, "/") {
          var replies := HandleCommand(text, chat.value, recent, now, parse, photoOk);
          sent := sent + replies;
        }
      }
      assert updates[..|updates|] == updates;
    }
  }
}
