/**
 * check_new_products.py: the one-shot checker. It loads the seen-set from
 * its file, fetches each collection (JSON first, the HTML page when that
 * fails), keeps the first sighting of every unseen handle, announces them
 * (or, on a first run, sends one summary) and writes the set back sorted.
 * What each fetch answers is an input; sends are the events returned.
 */
module CheckNewProducts {
  import opened Text
  import opened Catalog
  import opened Telegram
  import opened Detection

  // ───────────── load_seen / save_seen ─────────────

  /** `seen_products.json`: absent, or a JSON list of handles. */
  datatype SeenFile = NoSeenFile | SeenFile(handles: seq<string>)

  /** `load_seen()` */
  function LoadSeen(file: SeenFile): (seen: set<string>)
    ensures file.NoSeenFile? ==> seen == {}
    ensures file.SeenFile? ==> forall h :: h in seen <==> h in file.handles
  {
    if file.NoSeenFile? then {} else set h | h in file.handles
  }

  /** Every entry is below the next in Python's string order, so none repeats. */
  predicate StrictlyAscending(r: seq<string>) {
    forall i, j :: 0 <= i < j < |r| ==> Less(r[i], r[j])
  }

  predicate IsLeast(x: string, s: set<string>) {
    x in s && forall y :: y in s ==> y == x || Less(x, y)
  }

  lemma {:induction false} LeastExists(s: set<string>)
    requires s != {}
    ensures exists x :: IsLeast(x, s)
    decreases |s|
  {
    var y :| y in s;
    if s - {y} == {} {
      assert s == {y};
      assert IsLeast(y, s);
    } else {
      LeastExists(s - {y});
      var x :| IsLeast(x, s - {y});
      LessTotal(x, y);
      if Less(x, y) {
        assert IsLeast(x, s);
      } else {
        forall z | z in s && z != y ensures Less(y, z) {
          if z != x {
            LessTransitive(y, x, z);
          }
        }
        assert IsLeast(y, s);
      }
    }
  }

  lemma LeastUnique(s: set<string>)
    ensures forall x, y :: IsLeast(x, s) && IsLeast(y, s) ==> x == y
  {
    forall x, y | IsLeast(x, s) && IsLeast(y, s) ensures x == y {
      if x != y {
        LessTransitive(x, y, x);
        LessIrreflexive(x);
      }
    }
  }

  /** `sorted(seen)`: the handles in ascending order, each once. */
  function SortedHandles(s: set<string>): (r: seq<string>)
    ensures StrictlyAscending(r)
    ensures forall h :: h in r <==> h in s
    ensures |r| == |s|
    decreases |s|
  {
    if s == {} then []
    else
      LeastExists(s);
      LeastUnique(s);
      var x :| IsLeast(x, s);
      var rest := SortedHandles(s - {x});
      assert forall k :: 0 <= k < |rest| ==> rest[k] in s - {x};
      AscendingCons(x, rest);
      [x] + rest
  }

  /** A handle below every entry of an ascending list can go in front of it. */
  lemma AscendingCons(x: string, rest: seq<string>)
    requires StrictlyAscending(rest)
    requires forall k :: 0 <= k < |rest| ==> Less(x, rest[k])
    ensures StrictlyAscending([x] + rest)
  {
    var r := [x] + rest;
    forall i, j | 0 <= i < j < |r| ensures Less(r[i], r[j]) {
      if i > 0 {
        assert r[i] == rest[i - 1] && r[j] == rest[j - 1];
      }
    }
  }

  /** `save_seen(seen)` */
  function SaveSeen(seen: set<string>): SeenFile {
    SeenFile(SortedHandles(seen))
  }

  /** What is saved is what the next run loads: the file round-trips the seen-set. */
  lemma SeenRoundTrip(seen: set<string>)
    ensures LoadSeen(SaveSeen(seen)) == seen
    ensures StrictlyAscending(SaveSeen(seen).handles)
  {
  }

  // ───────────── fetch_products_json / fetch_products_html / fetch_products ─────────────

  /** The record built from a JSON product; this script keeps no `created_at`. */
  function JsonItem(collection: string, p: RawProduct): Item {
    Normalize(collection, p).(createdAt := "")
  }

  function JsonItems(collection: string, ps: seq<RawProduct>): (items: seq<Item>)
    ensures |items| == |ps|
    ensures forall k :: 0 <= k < |ps| ==> items[k] == JsonItem(collection, ps[k])
  {
    seq(|ps|, k requires 0 <= k < |ps| => JsonItem(collection, ps[k]))
  }

  /** `fetch_products_json(collection)`: `None` when the request or its decoding raised. */
  method FetchProductsJson(collection: string, json: Option<seq<RawProduct>>) returns (products: Option<seq<Item>>)
    ensures products.None? <==> json.None?
    ensures products.Some? ==> products.value == JsonItems(collection, json.value)
  {
    if json.None? {
      return None;
    }
    var ps := json.value;
    var items: seq<Item> := [];
    for k := 0 to |ps|
      invariant items == JsonItems(collection, ps[..k])
    {
      items := items + [JsonItem(collection, ps[k])];
    }
    assert ps[..|ps|] == ps;
    return Some(items);
  }

  /** The record built for a product link: the capitalised text after it as title, else the handle. */
  function HtmlItem(collection: string, a: Anchor): Item {
    var title := if a.titleRun.Some? then a.titleRun.value else a.handle;
    Item(a.handle, title, a.image, a.price, BaseUrl + a.path, collection, "")
  }

  /** The title is the capitalised run after the link when there is one, the handle otherwise. */
  lemma HtmlItemFields(collection: string, a: Anchor)
    ensures var p := HtmlItem(collection, a);
      && (a.titleRun.None? ==> p.title == a.handle)
      && (a.titleRun.Some? ==> p.title == a.titleRun.value)
      && p.handle == a.handle && p.url == BaseUrl + a.path && p.collection == collection
  {
  }

  function HtmlItems(collection: string, anchors: seq<Anchor>): (items: seq<Item>)
    ensures |items| == |anchors|
    ensures forall k :: 0 <= k < |anchors| ==> items[k] == HtmlItem(collection, anchors[k])
  {
    seq(|anchors|, k requires 0 <= k < |anchors| => HtmlItem(collection, anchors[k]))
  }

  /** What `fetch_products_html` returns: the first link to each handle, in page order. */
  function HtmlScrape(collection: string, anchors: seq<Anchor>): seq<Item> {
    Detect({}, HtmlItems(collection, anchors)).found
  }

  lemma HtmlHandles(collection: string, anchors: seq<Anchor>)
    ensures HandleSet(HtmlItems(collection, anchors)) == AnchorHandles(anchors)
  {
    var items := HtmlItems(collection, anchors);
    forall h | h in AnchorHandles(anchors) ensures h in HandleSet(items) {
      var a :| a in anchors && a.handle == h;
      var k :| 0 <= k < |anchors| && anchors[k] == a;
      assert items[k] in items;
    }
  }

  /**
   * The scrape yields exactly one product per handle the page links to
   * (there is no limit here), no handle twice.
   */
  lemma HtmlScrapeHandles(collection: string, anchors: seq<Anchor>)
    ensures var r := HtmlScrape(collection, anchors);
      && DistinctHandles(r)
      && HandleSet(r) == AnchorHandles(anchors)
      && |r| == |AnchorHandles(anchors)|
  {
    var items := HtmlItems(collection, anchors);
    HtmlHandles(collection, anchors);
    DetectFresh({}, items);
    DetectSeen({}, items);
    DetectCount({}, items);
  }

  /** Each scraped product is built from the first link to its handle, in page order. */
  lemma HtmlScrapeFirstLinks(collection: string, anchors: seq<Anchor>)
    ensures HtmlScrape(collection, anchors) == FirstSightings({}, HtmlItems(collection, anchors))
  {
    DetectIsFirstSightings({}, HtmlItems(collection, anchors));
  }

  /** `fetch_products_html(collection)`: `None` when fetching the page raised. */
  method FetchProductsHtml(collection: string, html: Option<seq<Anchor>>) returns (products: Option<seq<Item>>)
    ensures products.None? <==> html.None?
    ensures products.Some? ==> products.value == HtmlScrape(collection, html.value)
  {
    if html.None? {
      return None;
    }
    var anchors := html.value;
    ghost var all := HtmlItems(collection, anchors);
    var seenHandles: set<string> := {};
    var items: seq<Item> := [];
    for j := 0 to |anchors|
      invariant Pass(seenHandles, items) == Detect({}, all[..j])
    {
      var a := anchors[j];
      assert all[..j + 1] == all[..j] + [all[j]];
      DetectSnoc({}, all[..j], all[j]);
      if a.handle in seenHandles {
        continue;
      }
      seenHandles := seenHandles + {a.handle};
      items := items + [HtmlItem(collection, a)];
    }
    assert all[..|anchors|] == all;
    return Some(items);
  }

  /** What `fetch_products(collection)` yields: `None` when it raised. */
  function FetchOutcome(collection: string, json: Option<seq<RawProduct>>, html: Option<seq<Anchor>>): Option<seq<Item>> {
    if json.Some? then Some(JsonItems(collection, json.value))
    else if html.Some? then Some(HtmlScrape(collection, html.value))
    else None
  }

  /**
   * The HTML page is read only when the JSON fetch raised; a JSON answer is
   * used even when it lists no product; and the collection is skipped only
   * when both raised.
   */
  lemma FallbackOnlyOnFailure(collection: string, json: Option<seq<RawProduct>>, html: Option<seq<Anchor>>)
    ensures forall h2 :: FetchOutcome(collection, json, h2) == FetchOutcome(collection, json, html) || json.None?
    ensures FetchOutcome(collection, json, html).None? <==> json.None? && html.None?
    ensures json == Some([]) ==> FetchOutcome(collection, json, html) == Some([])
  {
  }

  /** `fetch_products(collection)` */
  method FetchProducts(collection: string, json: Option<seq<RawProduct>>, html: Option<seq<Anchor>>)
    returns (products: Option<seq<Item>>)
    ensures products == FetchOutcome(collection, json, html)
  {
    products := FetchProductsJson(collection, json);
    if products.Some? {
      return;
    }
    products := FetchProductsHtml(collection, html);
  }

  // ───────────── main ─────────────

  /** Everything fetched from the first `n` collections, in order; a collection whose fetch raised adds nothing. */
  function Fetched(json: JsonAnswers, html: HtmlAnswers, n: nat): seq<Item>
    requires n <= |Collections|
  {
    if n == 0 then []
    else
      var c := Collections[n - 1];
      var outcome := FetchOutcome(c, json(c), html(c));
      Fetched(json, html, n - 1) + (if outcome.Some? then outcome.value else [])
  }

  const SummaryHead := "\U{2705} Bot started! Monitoring 4 collections.\n\U{1F4E6} Indexed "
  const SummaryTail := " existing products.\n\nYou'll get notified when something new drops."

  function SummaryText(count: nat): string {
    SummaryHead + NatToString(count) + SummaryTail
  }

  /** One more collection adds what its fetch yielded, or nothing when it raised. */
  lemma FetchedNext(json: JsonAnswers, html: HtmlAnswers, i: nat)
    requires i < |Collections|
    ensures var outcome := FetchOutcome(Collections[i], json(Collections[i]), html(Collections[i]));
      Fetched(json, html, i + 1) == if outcome.Some? then Fetched(json, html, i) + outcome.value else Fetched(json, html, i)
  {
    assert Fetched(json, html, i) + [] == Fetched(json, html, i);
  }

  /** What a run sends: the summary on a first run, otherwise one notice per new product. */
  function RunMessages(firstRun: bool, found: seq<Item>, photoOk: string -> bool): seq<Event> {
    if firstRun then [SendMessage(ConfiguredChat, SummaryText(|found|))]
    else NoticeAll(CheckerStyle, found, ConfiguredChat, photoOk)
  }

  /**
   * The inner `for p in products` loop of `main`: the walk so far covered
   * `before`, and now continues over one collection's products.
   */
  method MarkNew(ghost start: set<string>, ghost before: seq<Item>, products: seq<Item>,
                 seen: set<string>, found: seq<Item>) returns (seen': set<string>, found': seq<Item>)
    requires Pass(seen, found) == Detect(start, before)
    ensures Pass(seen', found') == Detect(start, before + products)
  {
    seen', found' := seen, found;
    assert before + products[..0] == before;
    for j := 0 to |products|
      invariant Pass(seen', found') == Detect(start, before + products[..j])
    {
      var p := products[j];
      AppendNext(before, products, j);
      DetectSnoc(start, before + products[..j], p);
      if p.handle !in seen' {
        found' := found' + [p];
        seen' := seen' + {p.handle};
      }
    }
    assert products[..|products|] == products;
  }

  /** The `for collection in COLLECTIONS` loop of `main`, from the loaded seen-set. */
  method MarkAll(start: set<string>, json: JsonAnswers, html: HtmlAnswers) returns (seen: set<string>, newProducts: seq<Item>)
    ensures Pass(seen, newProducts) == Detect(start, Fetched(json, html, |Collections|))
  {
    seen, newProducts := start, [];
    for i := 0 to |Collections|
      invariant Pass(seen, newProducts) == Detect(start, Fetched(json, html, i))
    {
      var collection := Collections[i];
      var outcome := FetchProducts(collection, json(collection), html(collection));
      FetchedNext(json, html, i);
      if outcome.Some? {
        seen, newProducts := MarkNew(start, Fetched(json, html, i), outcome.value, seen, newProducts);
      }
    }
  }

  /** `main()`: the products found new, the messages sent and the seen file written. */
  method Run(file: SeenFile, json: JsonAnswers, html: HtmlAnswers, photoOk: string -> bool)
    returns (newProducts: seq<Item>, sent: seq<Event>, saved: SeenFile)
    ensures var pass := Detect(LoadSeen(file), Fetched(json, html, |Collections|));
      && newProducts == pass.found
      && saved == SaveSeen(pass.seen)
    ensures sent == RunMessages(LoadSeen(file) == {}, newProducts, photoOk)
  {
    var seen := LoadSeen(file);
    var firstRun := |seen| == 0;
    var newSeen;
    newSeen, newProducts := MarkAll(seen, json, html);
    if firstRun {
      sent := [SendMessage(ConfiguredChat, SummaryText(|newProducts|))];
    } else {
      sent := SendEach(CheckerStyle, newProducts, ConfiguredChat, photoOk);
    }
    saved := SaveSeen(newSeen);
  }

  /** A run never forgets a handle: the file it writes holds every handle it loaded plus every handle it fetched. */
  lemma RunRemembers(file: SeenFile, json: JsonAnswers, html: HtmlAnswers)
    ensures var fetched := Fetched(json, html, |Collections|);
      LoadSeen(SaveSeen(Detect(LoadSeen(file), fetched).seen)) == LoadSeen(file) + HandleSet(fetched)
  {
    DetectSeen(LoadSeen(file), Fetched(json, html, |Collections|));
  }

  /**
   * A later run announces exactly the fetched handles that were not in the
   * file; a first run's summary counts the distinct handles fetched.
   */
  lemma RunAnnounces(file: SeenFile, json: JsonAnswers, html: HtmlAnswers)
    ensures var fetched := Fetched(json, html, |Collections|);
      var found := Detect(LoadSeen(file), fetched).found;
      && HandleSet(found) == HandleSet(fetched) - LoadSeen(file)
      && (LoadSeen(file) == {} ==> |found| == |HandleSet(fetched)|)
  {
    var fetched := Fetched(json, html, |Collections|);
    DetectFresh(LoadSeen(file), fetched);
    if LoadSeen(file) == {} {
      DetectSeen({}, fetched);
      DetectCount({}, fetched);
    }
  }

  /** A first run that fetched nothing writes an empty list, so the next run is a first run again. */
  lemma EmptyFirstRunRepeats(file: SeenFile, json: JsonAnswers, html: HtmlAnswers)
    requires LoadSeen(file) == {}
    requires Fetched(json, html, |Collections|) == []
    ensures var pass := Detect(LoadSeen(file), Fetched(json, html, |Collections|));
      LoadSeen(SaveSeen(pass.seen)) == {} && SaveSeen(pass.seen) == SeenFile([])
  {
  }
}
