# Catalog watcher bot, modelled in Dafny

This project models a small bot that watches four collections of an online
shop (CIRCUS by MANIAC) and reports new products to a Telegram chat. There are three scripts:

- `bot.py` is the long-running bot. A pass fetches every collection page by page and diffs the product handles against an in-memory seen-set. It then announces each product it had not seen. On a first pass it sends one summary instead. A polling loop answers `/day`, `/week`, `/start` and `/status` and advances the update cursor.
- `bot_commands.py` is a one-shot command handler. It answers `/latest` with the four most recent products and `/start` with a greeting, then saves the update cursor to a file.
- `check_new_products.py` is a one-shot checker. It does the same diff as the bot against a seen-set kept in a JSON file, and writes the set back in sorted order.

Every network answer is an input value:
- A JSON page is `Option<seq<RawProduct>>`. `None` stands for a request or decoding that raised.
- A collection's HTML page is the sequence of product links found in it (`Anchor`), each with what the scrapers read after it.
- A timestamp parse is a function `string -> Option<int>`.
- Whether a photo send succeeds is a function of the image URL.

Every send is an `Event` in the returned outbox. The modules are:

- `Text`: Python's string order, `strip`, `lower`/`upper`, `split("@")[0]`, and decimal rendering.
- `Catalog`: constants, raw records, the product record and its normalisation, and collection labels.
- `Ordering`: the newest-first stable sort on the raw `created_at` strings, and truncation.
- `Telegram`: updates, events, the three caption styles, the photo-or-text delivery rule, and the update cursor.
- `Detection`: the seen-set diff that the bot and the checker share. The HTML scrapers' de-duplication is the same walk from an empty set.
- `Bot`: `bot.py`. Its two globals are the fields of the `BotState` class.
- `BotCommands`: `bot_commands.py`.
- `CheckNewProducts`: `check_new_products.py`.

`bot.py` sets the update cursor to the last update's id plus one, not to the largest id seen. The two agree whenever the transport delivers ids in increasing order. The model follows the code (`Telegram.NextOffset`). `Telegram.CursorPastBatch` proves that under that ordering the cursor is the largest id of the batch plus one. `Telegram.CursorUnorderedBatch` gives an unordered batch where the two differ.

## Model

| member | source | states |
|---|---|---|
| Catalog.Normalize | bot.py:43-56 | handle, title and created_at are the fields or ""; the url is the site, collection and handle; the image is the first image's src and the price is the first variant's price, each "" when missing |
| Catalog.NormalizeEach | bot.py:42-57 | the per-product loop of a JSON fetch yields one normalised record per product, in order |
| Catalog.FirstImage | bot.py:45 | the image is "" without images; otherwise it is the first image's src, or "" when that has none |
| Catalog.FirstPrice | bot.py:46 | the price is "" without variants; otherwise it is the first variant's price, or "" when that has none |
| Catalog.CollectionLabelTable | bot.py:127-134 | the label table covers exactly the four collections and gives each a distinct label; any other slug passes through unchanged |
| Text.Strip | bot.py:238 | the result is the input with its leading and trailing whitespace removed: a slice of the input, everything outside it whitespace, and its own ends not whitespace |
| Text.StripLeading | bot.py:238 | it returns the longest suffix that does not start with whitespace; everything removed is whitespace |
| Text.StripTrailing | bot.py:238 | it returns the longest prefix that does not end with whitespace; everything removed is whitespace |
| Text.Lower | bot.py:238 | lower-cases A-Z and KELVIN SIGN character by character and keeps every other character; the length is kept |
| Text.Upper | bot_commands.py:85 | upper-cases a-z character by character and keeps every other character; the length is kept |
| Text.ReplaceChar | bot_commands.py:85 | each occurrence of one character becomes another and every other character is kept; the length is kept |
| Text.BeforeAt | bot.py:238 | it returns a prefix without '@', followed in the input by '@' whenever it is shorter |
| Text.BeforeAtFirst | bot.py:238 | `split("@")[0]` keeps exactly the text before the first '@', and keeps a text without '@' whole |
| Text.NatToString | bot.py:204 | the rendering consists of decimal digits that denote the number; only 0 is rendered with a leading '0', as "0" |
| Text.LessTotal | bot.py:123 | Python's string order is total, which the sort relies on |
| Text.LessAtFirstDifference | bot.py:123 | strings that agree up to a position where the first has the smaller character compare as smaller |
| Ordering.SortNewestFirst | bot.py:123 | the sorted list is newest first by raw created_at string and is a permutation of its input |
| Ordering.SortTwo | bot.py:123 | two products with ordered timestamps come out newest first |
| Ordering.SortKeepsDistinct | bot.py:123 | sorting a list with distinct handles keeps them distinct |
| Ordering.Take | bot_commands.py:100 | `items[:n]` is the first min(n, len) entries |
| Ordering.TakeNewest | bot_commands.py:99-100 | truncating a newest-first list keeps it sorted, keeps only its entries, and leaves out nothing newer than what it keeps |
| Ordering.UndatedLast | bot_commands.py:90-99 | in a newest-first list, products without created_at come after all dated ones |
| Telegram.ChatOf | bot.py:288-290 | a chat is taken only when the message has a chat id that is present and non-zero |
| Telegram.CaptionLayout | bot.py:168-174 | the caption opens with the title line and ends with the link; the price line follows the title exactly when there is a price, and it reads "💴 " plus the style's currency plus the price |
| Telegram.Deliver | bot.py:137-178 | exactly one event: a photo with the caption when the image is non-empty and the photo send succeeds, otherwise the caption as text |
| Telegram.NoticeAll | bot.py:210-211 | one notice per product, in order |
| Telegram.SendEach | bot.py:210-211 | the sending loop emits exactly the notices of the products, in order |
| Telegram.NoticeAllTo | bot.py:210-211 | every notice of a list goes to the chat it is addressed to |
| Telegram.CursorPastBatch | bot.py:284-286 | for ids served in increasing order from the cursor, the new cursor is the batch's largest id plus one (past every update and one past one of them), and not below the old one |
| Telegram.CursorUnorderedBatch | bot.py:284-286 | with ids 5 then 3 the cursor becomes 4, which does not pass update 5 |
| Detection.DetectSeen | bot.py:193-196 | after a pass the seen-set is the old set plus every fetched handle; nothing is removed |
| Detection.DetectIsFirstSightings | bot.py:193-196 | the products found are exactly the first sightings of unseen handles, in fetch order |
| Detection.DetectFresh | bot.py:193-196 | every product found is fetched and unseen before; no two share a handle; together they cover every fetched unseen handle |
| Detection.DetectCount | bot.py:193-196 | the seen-set grows by exactly one handle per product found |
| Detection.DetectNothingNew | bot.py:193-196 | a pass over already-seen handles finds nothing and changes nothing |
| Detection.DetectIdempotent | bot.py:188-196 | a second pass over an unchanged catalog finds nothing |
| Detection.DetectPrefix | bot_commands.py:69-93 | what a walk finds in a prefix of its input is a prefix of what it finds in the whole |
| Detection.NoDuplicateAnnouncement | bot.py:183-212 | over any run of passes, no handle is announced twice, and none seen before the first pass is announced |
| Detection.FirstRunNeverAnnounced | bot.py:199-205 | handles indexed silently by a first pass are never announced later |
| Bot.FetchProductsJson | bot.py:37-59 | a page answers None exactly when the request raised, or the normalised products; past the last page it is empty |
| Bot.DrainStep | bot.py:64-72 | one request of the paging loop either stops it (failed, empty or short page) or adds a full page and moves to the next |
| Bot.FetchAllProducts | bot.py:62-74 | the loop returns the pages up to the one that stops it, concatenated, and makes one request per page up to that one |
| Bot.DrainStops | bot.py:62-74 | after full pages, a failed or short page ends the walk: it returns exactly the products on those pages, makes k+1 requests and ignores later pages |
| Bot.DrainThreePages | bot.py:62-74 | pages of 250, 250 and 10 products give 510 products in 3 requests |
| Bot.DrainFullThenEmpty | bot.py:62-74 | a full page followed by an empty one gives 250 products in 2 requests |
| Bot.ScanProducts | bot.py:92-114 | the per-page loop skips seen handles and missing timestamps, notes an out-of-window product, keeps the rest, and stops at a timestamp that fails to parse |
| Bot.CollectWindow | bot.py:84-120 | paging a collection stops after an empty page, a failed parse, an out-of-window product or a page under 50 |
| Bot.WindowPagesStop | bot.py:115-120 | pages after a failed or short page are never consulted |
| Bot.GetLatestProducts | bot.py:77-124 | it returns the time-window query for now minus the days: every product returned has a created_at that parses to a time no older than that; no handle repeats; the list is newest first (what it does not miss is stated by WindowQueryComplete) |
| Bot.WindowQuerySound | bot.py:95-123 | the query's result is in the window, has distinct handles, is sorted, and is a permutation of what the walk collected |
| Bot.ScanPageOk | bot.py:92-114 | scanning a page keeps the collected products in the window, with distinct handles, matching the handle set |
| Bot.WindowFromOk | bot.py:83-120 | the walk over all collections keeps the same invariant |
| Bot.ScanPageComplete | bot.py:92-114 | a page scan keeps what was collected, in place; it fails only at a timestamp that does not parse; every in-window product met before such a timestamp has its handle collected |
| Bot.ReachedResume | bot.py:84-120 | once the page loop reaches a page, the rest of the walk is the loop resumed there with the window it reached it with |
| Bot.ReachedPrefix | bot.py:84-120 | which pages the loop reaches depends only on the pages before them |
| Bot.WindowPagesGrows | bot.py:84-120 | paging a collection keeps every handle and product collected before, in place |
| Bot.WindowPagesComplete | bot.py:84-120 | on every page the loop reaches, each product in the window up to the first unparsable timestamp has its handle collected |
| Bot.WindowStopsAt | bot.py:101-120 | a reached page whose scan meets an out-of-window product or an unparsable timestamp, or that is short, is the last one read: the walk ends with the window after it, whatever pages follow |
| Bot.EveryCollectionWalked | bot.py:83-120 | every collection is walked from its first page, however the walks before it ended |
| Bot.FailedCollectionSkipped | bot.py:83-91 | a collection whose first request fails or is empty adds nothing, and the next one starts from the same window |
| Bot.WindowFromGrows | bot.py:83-120 | the collection loop keeps every handle collected before |
| Bot.WindowQueryComplete | bot.py:77-124 | nothing is missed: each in-window product on any page the walk reaches, up to the first unparsable timestamp, has its handle among the returned products |
| Bot.ExampleScan | bot.py:92-114 | scanning a page of products ten days, three days and one hour old against a seven-day window skips the first and keeps the other two |
| Bot.ExampleStampsOrdered | bot.py:123 | the example's three-day-old timestamp sorts before its one-hour-old one |
| Bot.WeekQueryExample | bot.py:77-124 | that page under a seven-day window yields exactly the two products inside it, newest first |
| Bot.PassMessagesShape | bot.py:199-212 | a first pass sends one summary and no notice; a later pass sends one notice per new product to the configured chat |
| Bot.SecondPassQuiet | bot.py:183-212 | a second pass over an unchanged catalog finds and sends nothing, unless the set stayed empty, in which case it sends the summary of 0 |
| Bot.CommandIgnoresBotSuffix | bot.py:238 | `/cmd@botname` is read as the lower-cased `/cmd` |
| Bot.QueryRepliesTo | bot.py:239-261 | a /day or /week answer has two lines plus one notice per product, all to the asking chat |
| Bot.QueryAnswer | bot.py:239-261 | the /day and /week branch sends the opening line, then either the none-found line or the count line and one notice per product |
| Bot.CommandRepliesShape | bot.py:237-277 | only /day, /week, /start and /status reply, all to the asking chat; /start and /status send one message; /day and /week send two plus one per product |
| Bot.UpdateSilent | bot.py:288-291 | an update without a chat or a slash, or with an unknown command, sends nothing |
| Bot.UnknownCommandsSilent | bot.py:284-291 | a batch of updates that are not dispatched or are not known commands sends nothing |
| Bot.ServedAtOrPast | bot.py:280-291 | every update of a run of batches served in order is at or past the cursor the run started from |
| Bot.CursorStepUp | bot.py:284-286 | handling one more batch served in order never moves the cursor back |
| Bot.CursorNeverDecreases | bot.py:280-291 | over batches served in order, the cursor never goes back, over the run or from one batch to the next, and every id of a later batch exceeds every id of an earlier one, so no update is served twice |
| Bot.BotState.constructor | bot.py:27-28 | the seen-set starts empty and the cursor starts at 0 |
| Bot.BotState.CheckNewProducts | bot.py:183-214 | the new set and the products found are the diff of the old set against every collection's products, in collection-then-fetch order; a first run (empty set at the start) sends only the summary, and any other run sends one notice per new product |
| Bot.BotState.MarkAll | bot.py:188-196 | the loop over the collections leaves the seen-set and the found list equal to the diff of the old set against every collection's products, in order |
| Bot.BotState.MarkNew | bot.py:193-196 | the inner loop over one collection's products extends the diff by exactly those products |
| Bot.BotState.HandleCommand | bot.py:237-277 | it sends the replies of the normalised command to the asking chat |
| Bot.BotState.PollBatch | bot.py:280-291 | the cursor becomes the last update's id plus one; only updates with a chat and text starting with "/" are dispatched |
| BotCommands.FallbackItemFields | bot_commands.py:83-91 | a fallback title is the handle with '-' made ' ' and letters upper-cased, so it has no '-'; the url is the site plus the linked path; created_at is "" |
| BotCommands.ScrapeFallback | bot_commands.py:65-93 | the scraping loop keeps the first link to each handle and stops at the fourth distinct handle |
| BotCommands.ScrapeStops | bot_commands.py:69-93 | once four distinct handles are found, or the links run out, later links change nothing |
| BotCommands.ScrapeCount | bot_commands.py:69-93 | the fallback yields min(4, number of distinct linked handles) products |
| BotCommands.ScrapeOrigins | bot_commands.py:69-91 | fallback products have distinct handles, no created_at, and each is built from a link on the page |
| BotCommands.FallbackOnlyOnFailure | bot_commands.py:45-66 | a JSON answer is used as is, even when empty; only a failed JSON fetch reads the HTML page, and that adds at most 4 products |
| BotCommands.LatestQueryFacts | bot_commands.py:98-100 | /latest shows min(count, total) products, newest first, all gathered from the collections; none left out is newer than one shown |
| BotCommands.AllFetchesFailed | bot_commands.py:43-100 | when every fetch fails the query returns nothing |
| BotCommands.GetLatestProducts | bot_commands.py:40-100 | it returns the merged per-collection contributions, sorted newest first and cut to count |
| BotCommands.LoadOffset | bot_commands.py:22-26 | a missing file or a missing key loads as 0 |
| BotCommands.OffsetRoundTrip | bot_commands.py:22-31 | the saved cursor is the one the next run loads |
| BotCommands.LatestRepliesTo | bot_commands.py:166-182 | a /latest answer is the progress line plus one notice per product, or the apology when there are none, all to the asking chat |
| BotCommands.AnswerLatest | bot_commands.py:166-182 | the /latest branch sends the progress line, then the notices, or "Could not fetch" when the query is empty |
| BotCommands.AnswerTriggers | bot_commands.py:161-191 | an update is answered exactly when it has a chat and its stripped, lower-cased text is /latest or /start, bare or addressed to this bot |
| BotCommands.AnswerUpdate | bot_commands.py:158-191 | one update is answered as /latest, as /start or not at all, by its chat and normalised text |
| BotCommands.ScrapedPriceShowsTwoYenSigns | bot_commands.py:81-175 | a scraped price already starts with "¥", and the /latest caption adds another in front of it |
| BotCommands.Run | bot_commands.py:150-196 | it sends the answers to every update in order and saves, once, the loaded cursor advanced to the last update's id plus one; updates without a chat still advance it |
| CheckNewProducts.LoadSeen | check_new_products.py:23-27 | a missing file loads as the empty set, and otherwise as the set of listed handles |
| CheckNewProducts.SortedHandles | check_new_products.py:30-32 | `sorted(seen)` lists each handle once, in strictly ascending string order |
| CheckNewProducts.SeenRoundTrip | check_new_products.py:23-32 | loading what was saved gives back the same set, and the file is sorted |
| CheckNewProducts.LeastExists | check_new_products.py:32 | every non-empty set of handles has a least element |
| CheckNewProducts.FetchProductsJson | check_new_products.py:35-62 | the fetch answers None exactly when the request raised, and otherwise one record per product |
| CheckNewProducts.HtmlItemFields | check_new_products.py:100-110 | the title is the capitalised run after the link, or the handle when there is none; the url is the site plus the path |
| CheckNewProducts.HtmlScrapeHandles | check_new_products.py:75-80 | the scrape yields one product per distinct linked handle, with no cap, never one handle twice |
| CheckNewProducts.HtmlScrapeFirstLinks | check_new_products.py:76-110 | each scraped product is built from the first link to its handle, in page order |
| CheckNewProducts.FetchProductsHtml | check_new_products.py:65-112 | the scraping loop returns the first link to each handle, or None when the page fetch raised |
| CheckNewProducts.FallbackOnlyOnFailure | check_new_products.py:115-119 | the HTML page matters only when JSON answered None; an empty JSON list is used as is; the collection fails only when both fail |
| CheckNewProducts.FetchProducts | check_new_products.py:115-119 | the JSON answer when there is one, otherwise the scrape |
| CheckNewProducts.Run | check_new_products.py:162-201 | the products found and the file written are the diff of the loaded set against every collection that did not raise; a first run sends only the summary, and any other run sends one notice per new product with the raw price |
| CheckNewProducts.MarkAll | check_new_products.py:167-177 | the loop over the collections gives the diff of the loaded set against every collection that did not fail, in order |
| CheckNewProducts.MarkNew | check_new_products.py:172-176 | the inner loop over one collection's products extends the diff by exactly those products |
| CheckNewProducts.RunRemembers | check_new_products.py:172-201 | the file written holds every loaded handle plus every fetched handle |
| CheckNewProducts.RunAnnounces | check_new_products.py:172-197 | a run announces exactly the fetched handles that were not in the file, and a first run's summary counts the distinct handles fetched |
| CheckNewProducts.EmptyFirstRunRepeats | check_new_products.py:164-201 | a first run that fetched nothing writes an empty list, so the next run is a first run again |

## Left out

- Network calls, Telegram calls, threads, the health server, the self-ping loop, `sleep` pacing and the endless outer loops. The model covers one pass, one batch and one script run. The answers of `fetch_url`, `get_updates` and the send calls are inputs.
- One set of fetch answers (`recent`, `json`, `html`, keyed by collection), one `now` and one `photoOk` (keyed by image URL) serve every command in a batch or run. The scripts fetch again and read the clock again for each `/day`, `/week` or `/latest` (bot.py:79, 242, 253; bot_commands.py:167). The model does not capture answers or time changing between commands of one batch.
- Text sends are assumed to succeed. A `send_telegram_message` that raised would end the loop it is in. In `check_new_products.py` it would also skip `save_seen`, and in `bot_commands.py` `main` it would skip `save_offset`, since that loop has no `try` (bot_commands.py:155-193). Only the photo send has a modelled failure: it falls back to a text message.
- Regular expressions are not modelled. The product-link pattern, the image rewrite to 600x600, the "¥" price token and the capitalised-title heuristic arrive as the fields of each `Anchor`. The unused `title_match` search in `check_new_products.py` is not modelled.
- `datetime.fromisoformat` (after "Z" becomes "+00:00"), the aware-versus-naive comparison, and `datetime.now` are not modelled. Parsing is a function to integer seconds; `None` means it raised. `now` is a parameter, and the cutoff is `now - days * 86400`.
- JSON decoding details are not modelled: `null` values, non-dict entries and a malformed seen or offset file. A JSON fetch either yields a product list or raises. A raise part-way through a product list, which would keep the records built before it, is not modelled.
- Text.Lower: covers only characters whose lower-case form is ASCII (A-Z and KELVIN SIGN). Other characters, such as accented capitals or 'İ' (which becomes two characters), are kept as they are. This cannot change which of the ASCII command words a text equals. Python lowers every other character to a string that holds a non-ASCII character ('İ' becomes 'i' followed by U+0307), and the model keeps that character non-ASCII. So before the first '@', neither text can equal an all-ASCII command word.
- Text.Upper: ASCII letters only. Python also upper-cases other letters in a fallback title (and turns 'ß' into "SS").
- Ordering.SortNewestFirst: states sortedness and permutation, but not stability. Products with equal `created_at` strings keep their input order in Python. The definition inserts stably, but no lemma states it.
- BotCommands.GetLatestProducts: `count` is a natural number, so Python's negative slice bounds are not modelled. The script only ever passes 4.
- The sort is a function on sequences, not Python's in-place `list.sort`.
- The products of `check_new_products.py` carry `created_at` as "". That script neither stores nor reads the field.
- `os.environ` configuration, the fail-fast start-up, and the printed log lines are not modelled.
