/**
 * bot_commands.py: a one-shot command handler. It loads the update cursor
 * from its file, answers /latest with the four most recent products across
 * the collections (falling back to scraping a collection's HTML page when
 * its JSON fetch fails) and /start with a greeting, then saves the cursor.
 * What each fetch answers is an input; sends are the events returned.
 */
module BotCommands {
  import opened Text
  import opened Catalog
  import opened Ordering
  import opened Telegram
  import opened Detection

  /** How many products /latest shows (`get_latest_products(4)`). */
  const LatestCount: nat := 4
  /** The fallback scraper stops once it has this many distinct handles. */
  const ScrapeLimit: nat := 4

  // ───────────── the HTML fallback of get_latest_products ─────────────

  /** The record built for a product link: a title made from the handle, no `created_at`. */
  function FallbackItem(collection: string, a: Anchor): Item {
    Item(a.handle, Upper(ReplaceChar(a.handle, '-', ' ')), a.image, a.price, BaseUrl + a.path, collection, "")
  }

  /**
   * A fallback record's title is its handle with every '-' turned into a
   * space and letters upper-cased, so it holds no '-'; its url is the site
   * plus the linked path, and it has no `created_at`.
   */
  lemma FallbackItemFields(collection: string, a: Anchor)
    ensures var p := FallbackItem(collection, a);
      && p.handle == a.handle && p.url == BaseUrl + a.path && p.createdAt == ""
      && |p.title| == |a.handle|
      && (forall k :: 0 <= k < |a.handle| ==> p.title[k] == if a.handle[k] == '-' then ' ' else UpperChar(a.handle[k]))
      && '-' !in p.title
  {
    var t := FallbackItem(collection, a).title;
    forall k | 0 <= k < |t| ensures t[k] != '-' {
      assert t[k] == UpperChar(ReplaceChar(a.handle, '-', ' ')[k]);
    }
  }

  function FallbackItems(collection: string, anchors: seq<Anchor>): (items: seq<Item>)
    ensures |items| == |anchors|
    ensures forall k :: 0 <= k < |anchors| ==> items[k] == FallbackItem(collection, anchors[k])
  {
    seq(|anchors|, k requires 0 <= k < |anchors| => FallbackItem(collection, anchors[k]))
  }

  /** What the fallback contributes: the first sighting of each handle, up to four of them. */
  function Scrape(collection: string, anchors: seq<Anchor>): seq<Item> {
    Take(Detect({}, FallbackItems(collection, anchors)).found, ScrapeLimit)
  }

  lemma FallbackHandles(collection: string, anchors: seq<Anchor>)
    ensures HandleSet(FallbackItems(collection, anchors)) == AnchorHandles(anchors)
  {
    var items := FallbackItems(collection, anchors);
    forall h | h in AnchorHandles(anchors) ensures h in HandleSet(items) {
      var a :| a in anchors && a.handle == h;
      var k :| 0 <= k < |anchors| && anchors[k] == a;
      assert items[k] in items;
    }
  }

  /** The fallback yields one product per distinct linked handle, up to four. */
  lemma ScrapeCount(collection: string, anchors: seq<Anchor>)
    ensures var n := |AnchorHandles(anchors)|;
      |Scrape(collection, anchors)| == if n < ScrapeLimit then n else ScrapeLimit
  {
    var items := FallbackItems(collection, anchors);
    DetectSeen({}, items);
    DetectCount({}, items);
    FallbackHandles(collection, anchors);
  }

  /**
   * The products the fallback yields have distinct handles, and each is the
   * record built from a link on the page, with no `created_at`; so they
   * sort after every dated product.
   */
  lemma ScrapeOrigins(collection: string, anchors: seq<Anchor>)
    ensures var r := Scrape(collection, anchors);
      && DistinctHandles(r)
      && (forall x :: x in r ==> x.createdAt == "" && x.collection == collection)
      && (forall x :: x in r ==> exists k :: 0 <= k < |anchors| && x == FallbackItem(collection, anchors[k]))
  {
    var items := FallbackItems(collection, anchors);
    var found := Detect({}, items).found;
    DetectFresh({}, items);
    var r := Scrape(collection, anchors);
    forall x | x in r
      ensures exists k :: 0 <= k < |anchors| && x == FallbackItem(collection, anchors[k])
    {
      var i :| 0 <= i < |r| && r[i] == x;
      assert found[i] == x;
      var k :| 0 <= k < |items| && items[k] == x;
    }
  }

  /** The walk may stop at the end of the page, or as soon as it has taken four handles: the rest adds nothing. */
  lemma ScrapeStops(collection: string, anchors: seq<Anchor>, j: nat)
    requires j <= |anchors|
    requires j == |anchors| || |Detect({}, FallbackItems(collection, anchors)[..j]).found| >= ScrapeLimit
    ensures Scrape(collection, anchors) == Take(Detect({}, FallbackItems(collection, anchors)[..j]).found, ScrapeLimit)
  {
    var all := FallbackItems(collection, anchors);
    if j == |anchors| {
      assert all[..j] == all;
    } else {
      DetectPrefix({}, all, j);
    }
  }

  /** The fallback scraping loop: skip a handle already taken, stop at the fourth. */
  method ScrapeFallback(collection: string, anchors: seq<Anchor>) returns (items: seq<Item>)
    ensures items == Scrape(collection, anchors)
  {
    var seen: set<string> := {};
    items := [];
    ghost var all := FallbackItems(collection, anchors);
    for j := 0 to |anchors|
      invariant Pass(seen, items) == Detect({}, all[..j])
      invariant |items| < ScrapeLimit
    {
      var a := anchors[j];
      TakeNext(all, j);
      DetectSnoc({}, all[..j], all[j]);
      if a.handle in seen {
        continue;
      }
      seen := seen + {a.handle};
      items := items + [FallbackItem(collection, a)];
      DetectCount({}, all[..j + 1]);
      if |seen| >= ScrapeLimit {
        ScrapeStops(collection, anchors, j + 1);
        return;
      }
    }
    ScrapeStops(collection, anchors, |anchors|);
  }

  // ───────────── get_latest_products(count) ─────────────

  /** What one collection adds: its JSON products, or on a failed JSON fetch the scraped ones, or nothing. */
  function Contribution(collection: string, json: Option<seq<RawProduct>>, html: Option<seq<Anchor>>): seq<Item> {
    if json.Some? then NormalizeAll(collection, json.value)
    else if html.Some? then Scrape(collection, html.value)
    else []
  }

  /** `all_products` after the first `n` collections. */
  function Merged(json: JsonAnswers, html: HtmlAnswers, n: nat): seq<Item>
    requires n <= |Collections|
  {
    if n == 0 then []
    else Merged(json, html, n - 1) + Contribution(Collections[n - 1], json(Collections[n - 1]), html(Collections[n - 1]))
  }

  /** What `get_latest_products(count)` returns. */
  function LatestQuery(count: nat, json: JsonAnswers, html: HtmlAnswers): seq<Item> {
    Take(SortNewestFirst(Merged(json, html, |Collections|)), count)
  }

  /**
   * A successful JSON fetch is used as it is, even when it is empty; the
   * HTML page is consulted only when the JSON fetch raised.
   */
  lemma FallbackOnlyOnFailure(collection: string, json: Option<seq<RawProduct>>, html: Option<seq<Anchor>>)
    ensures json.Some? ==> Contribution(collection, json, html) == NormalizeAll(collection, json.value)
    ensures json.None? && html.None? ==> Contribution(collection, json, html) == []
    ensures json.None? ==> |Contribution(collection, json, html)| <= ScrapeLimit
  {
    if json.None? && html.Some? {
      ScrapeCount(collection, html.value);
    }
  }

  /**
   * /latest shows at most `count` products, newest first, all of them
   * gathered from the collections; and none left out is newer than one
   * shown.
   */
  lemma LatestQueryFacts(count: nat, json: JsonAnswers, html: HtmlAnswers)
    ensures var merged := Merged(json, html, |Collections|);
      var sorted := SortNewestFirst(merged);
      var r := LatestQuery(count, json, html);
      && |r| == (if |merged| < count then |merged| else count)
      && SortedNewestFirst(r)
      && multiset(r) <= multiset(merged)
      && (forall i, j :: 0 <= i < |r| <= j < |sorted| ==> !Less(r[i].createdAt, sorted[j].createdAt))
  {
    TakeNewest(SortNewestFirst(Merged(json, html, |Collections|)), count);
  }

  /** When every fetch of every collection fails, /latest has nothing to show. */
  lemma AllFetchesFailed(count: nat, json: JsonAnswers, html: HtmlAnswers)
    requires forall c :: c in Collections ==> json(c).None? && html(c).None?
    ensures LatestQuery(count, json, html) == []
  {
    assert Merged(json, html, 1) == [];
    assert Merged(json, html, 2) == [];
    assert Merged(json, html, 3) == [];
    assert Merged(json, html, 4) == [];
  }

  /** `get_latest_products(count)` */
  method GetLatestProducts(count: nat, json: JsonAnswers, html: HtmlAnswers) returns (products: seq<Item>)
    ensures products == LatestQuery(count, json, html)
  {
    var all: seq<Item> := [];
    for i := 0 to |Collections|
      invariant all == Merged(json, html, i)
    {
      var collection := Collections[i];
      var data := json(collection);
      if data.Some? {
        var items := NormalizeEach(collection, data.value);
        all := all + items;
      } else {
        var page := html(collection);
        if page.Some? {
          var items := ScrapeFallback(collection, page.value);
          all := all + items;
        }
      }
    }
    products := Take(SortNewestFirst(all), count);
  }

  // ───────────── main ─────────────

  /** `bot_offset.json`: absent, or holding an object whose "offset" key may be missing. */
  datatype OffsetFile = NoOffsetFile | OffsetFile(offset: Option<int>)

  /** `load_offset()` */
  function LoadOffset(file: OffsetFile): (offset: int)
    ensures file.NoOffsetFile? || file.offset.None? ==> offset == 0
  {
    if file.OffsetFile? && file.offset.Some? then file.offset.value else 0
  }

  /** `save_offset(offset)` */
  function SaveOffset(offset: int): OffsetFile {
    OffsetFile(Some(offset))
  }

  /** The cursor saved is the cursor the next run loads. */
  lemma OffsetRoundTrip(offset: int)
    ensures LoadOffset(SaveOffset(offset)) == offset
  {
  }

  const GreetingText := "\U{1F44B} Hey! I monitor new products on CIRCUS by MANIAC.\n\nCommands:\n/latest \U{2014} show 4 most recent products"
  const FetchingLatest := "\U{1F50D} Fetching latest products..."
  const CouldNotFetch := "\U{274C} Could not fetch products right now."

  /** `text.strip().lower()`; unlike bot.py, nothing after an '@' is cut off. */
  function Trigger(text: string): string {
    Lower(Strip(text))
  }

  predicate IsLatest(text: string) {
    var t := Trigger(text);
    t == "/latest" || t == "/latest@circusbymaniac_bot"
  }

  predicate IsStart(text: string) {
    var t := Trigger(text);
    t == "/start" || t == "/start@circusbymaniac_bot"
  }

  /** The /latest answer: a progress line, then one notice per product or an apology when there are none. */
  function LatestReplies(to: Chat, products: seq<Item>, photoOk: string -> bool): seq<Event> {
    [SendMessage(to, FetchingLatest)]
    + if products == [] then [SendMessage(to, CouldNotFetch)]
      else NoticeAll(LatestStyle, products, to, photoOk)
  }

  lemma LatestRepliesTo(to: Chat, products: seq<Item>, photoOk: string -> bool)
    ensures var sent := LatestReplies(to, products, photoOk);
      && |sent| == 1 + (if products == [] then 1 else |products|)
      && (forall e :: e in sent ==> e.to == to)
  {
    NoticeAllTo(LatestStyle, products, to, photoOk);
  }

  /** The /latest branch of `main`. */
  method AnswerLatest(to: Chat, json: JsonAnswers, html: HtmlAnswers, photoOk: string -> bool) returns (sent: seq<Event>)
    ensures sent == LatestReplies(to, LatestQuery(LatestCount, json, html), photoOk)
  {
    sent := [SendMessage(to, FetchingLatest)];
    var products := GetLatestProducts(LatestCount, json, html);
    if products == [] {
      sent := sent + [SendMessage(to, CouldNotFetch)];
    } else {
      var notices := SendEach(LatestStyle, products, to, photoOk);
      sent := sent + notices;
    }
  }

  /** What `main` sends for one update. */
  function UpdateAnswer(u: Update, json: JsonAnswers, html: HtmlAnswers, photoOk: string -> bool): seq<Event> {
    if ChatOf(u).None? then []
    else
      var to := ChatId(ChatOf(u).value);
      if IsLatest(TextOf(u)) then LatestReplies(to, LatestQuery(LatestCount, json, html), photoOk)
      else if IsStart(TextOf(u)) then [SendMessage(to, GreetingText)]
      else []
  }

  /** Everything `main` sends for a batch of updates, in order. */
  function RunReplies(updates: seq<Update>, json: JsonAnswers, html: HtmlAnswers, photoOk: string -> bool): seq<Event>
    decreases |updates|
  {
    if updates == [] then []
    else
      var n := |updates| - 1;
      RunReplies(updates[..n], json, html, photoOk) + UpdateAnswer(updates[n], json, html, photoOk)
  }

  /**
   * An update is answered exactly when it comes from a chat and its
   * trimmed, lower-cased text is /latest or /start, bare or addressed to
   * this bot; every answer goes to that chat, and /latest always opens
   * with the progress line.
   */
  lemma AnswerTriggers(u: Update, json: JsonAnswers, html: HtmlAnswers, photoOk: string -> bool)
    ensures var sent := UpdateAnswer(u, json, html, photoOk);
      && (sent != [] <==> ChatOf(u).Some? && (IsLatest(TextOf(u)) || IsStart(TextOf(u))))
      && (forall e :: e in sent ==> e.to == ChatId(ChatOf(u).value))
      && (ChatOf(u).Some? && IsLatest(TextOf(u)) ==>
            sent[0] == SendMessage(ChatId(ChatOf(u).value), FetchingLatest))
  {
    if ChatOf(u).Some? && IsLatest(TextOf(u)) {
      LatestRepliesTo(ChatId(ChatOf(u).value), LatestQuery(LatestCount, json, html), photoOk);
    }
  }

  /** A scraped price already carries its "¥", and the /latest caption puts another one in front of it. */
  lemma ScrapedPriceShowsTwoYenSigns(collection: string, a: Anchor, to: Chat, photoOk: string -> bool)
    requires a.price != [] && a.price[0] == '\U{A5}'
    ensures var c, t := Caption(LatestStyle, FallbackItem(collection, a)), TitleLine(LatestStyle, FallbackItem(collection, a));
      c[|t|..|t| + 4] == [PriceMark, ' ', '\U{A5}', '\U{A5}']
  {
    var p := FallbackItem(collection, a);
    CaptionLayout(LatestStyle, p);
  }

  /** Taking one more update appends its answer. */
  lemma RunRepliesNext(updates: seq<Update>, k: nat, json: JsonAnswers, html: HtmlAnswers, photoOk: string -> bool)
    requires k < |updates|
    ensures RunReplies(updates[..k + 1], json, html, photoOk)
         == RunReplies(updates[..k], json, html, photoOk) + UpdateAnswer(updates[k], json, html, photoOk)
  {
    assert updates[..k + 1][..k] == updates[..k];
  }

  /** The body of `main`'s `for update in updates` loop, after the cursor is advanced. */
  method AnswerUpdate(update: Update, json: JsonAnswers, html: HtmlAnswers, photoOk: string -> bool) returns (replies: seq<Event>)
    ensures replies == UpdateAnswer(update, json, html, photoOk)
  {
    var chat := ChatOf(update);
    if chat.None? {
      return [];
    }
    var to := ChatId(chat.value);
    var text := TextOf(update);
    if IsLatest(text) {
      replies := AnswerLatest(to, json, html, photoOk);
    } else if IsStart(text) {
      replies := [SendMessage(to, GreetingText)];
    } else {
      replies := [];
    }
  }

  /** `main()`: the replies sent and the cursor file written. */
  method Run(file: OffsetFile, updates: seq<Update>, json: JsonAnswers, html: HtmlAnswers, photoOk: string -> bool)
    returns (sent: seq<Event>, saved: OffsetFile)
    ensures sent == RunReplies(updates, json, html, photoOk)
    ensures saved == SaveOffset(NextOffset(LoadOffset(file), updates))
  {
    var offset := LoadOffset(file);
    sent := [];
    for k := 0 to |updates|
      invariant offset == NextOffset(LoadOffset(file), updates[..k])
      invariant sent == RunReplies(updates[..k], json, html, photoOk)
    {
      var update := updates[k];
      RunRepliesNext(updates, k, json, html, photoOk);
      offset := update.updateId + 1;
      var replies := AnswerUpdate(update, json, html, photoOk);
      sent := sent + replies;
    }
    assert updates[..|updates|] == updates;
    saved := SaveOffset(offset);
  }
}
