# Zillow price-partitioned crawler, modelled in Dafny

`zillow_scraper.py` harvests the listings of one city from a search site that
shows at most 20 result pages per query. It works around the cap by sorting the
results by ascending price and crawling in *windows*. Each window fetches up to
20 pages at a fixed price floor, then reads the next floor from the last page
it fetched. The crawl ends when a window's first page says fewer than 20 pages
remain, or when any step fails.

This project models the core of that program and proves properties of the model:

- `SearchUrl` (`search_url.dfy`): the search URL builder, `zillow_url_constructor`.
- `Backoff` (`backoff.dfy`): the retry loop with exponential backoff, `make_request_with_backoff`.
- `ListingCount` (`listing_count.dfy`): the listing-count reader, `extract_listing_count`.
- `NewMinimum` (`new_minimum.dfy`): the next-floor search, `find_new_minimum`.
- `Crawl` (`crawl.dfy`): the probe and the window loop of `zillow_scraper`.
- `FloorPlans` (`floor_plans.dfy`): the recursive `floorPlans` lookup, `extract_floor_plans`.
- `RentalFrame` (`rental_frame.dfy`): the per-listing table rows of `make_frame_rentals`.
- `JsonValue`, `Digits` and `Wrappers` hold decoded JSON, digit strings and `Option`/`Result`.

The network is a parameter. `probe` answers the plain GET of the probe URL.
`fetch` answers `make_request_with_backoff` for a search URL, and returns None
when that call gives up or raises. A response is reduced to what the crawl
reads from its HTML: the text of the `result-count` span and the
`__NEXT_DATA__` payload (absent, rejected by `json.loads`, or decoded).
Sleeping is recorded, not performed: the crawl state keeps the list of
requested URLs and the pauses taken, and the backoff returns its list of delays.
What stays fixed across a crawl is a `Crawl.Search`: the function giving the URL
requested for each page and floor, and the pause between pages.
`Crawl.ZillowSearch` builds it from `zillow_url_constructor`, so every page the
crawl requests has exactly the URL that function builds.

Loops in the source are loops in the model. Each of these methods is proved
equal to a recursive specification function:

- `Crawl.CollectWindows`, `Crawl.RunWindow` and `Crawl.CollectRemaining`
- `NewMinimum.ScanRecords`
- `Backoff.RequestWithBackoff`
- `RentalFrame.MakeFrameRentals` and `RentalFrame.AppendListingRows`

The lemmas then state the source's promises about those functions.

### Where the code departs from its own comments, and behaviour easy to miss

The model follows the code in every case below.

- `find_new_minimum`, line 270, keeps the unit prices strictly *below*
  `max(past_minimums)`. The comments at lines 263 and 269 say the opposite:
  prices lower than the past floors are removed. With past floors `[0, 1000]`
  and units `$1,200+`, `$950`, `$2,000`, the code returns 950, not 1200
  (`NewMinimum.GroupExampleAsWritten`). The comment at line 263 gives the
  intent of the filter: avoiding a loop.
- So the next floor is not always above the current one, although the comments
  at lines 354-355 expect the floors to climb until the last window. Suppose a
  full window finds its own floor again, and the site answers every repeated
  request for a URL exactly as before. Then the same window repeats forever;
  `Crawl.RepeatedFloorNeverEnds` proves that the loop then never ends. The
  model's `fetch` is a function, which builds that assumption in. A live site
  whose answers change between requests need not repeat the window.
- Not every malformed record is skipped. A grouped record whose unit price does
  not convert raises, and that ends the crawl (`NewMinimum.MalformedUnitFails`).
  Only a plain record's `unformattedPrice` failure is caught.
- `data_list` also holds the probe page's payload. A single window of three
  pages therefore returns four payloads.
- Pages of a window that fails part-way are kept: each page is appended as soon
  as it is read. A window whose fetch gives up, or whose payload is missing, at
  page `k` has requested pages 1 to `k`, kept the payloads of pages 1 to `k - 1`
  in order, and paused after each of pages 2 to `k - 1` (`Crawl.BrokenWindow`,
  `Crawl.RemainingPagesStop`).
- A failed count read inside the loop does not abort the crawl with an error.
  It is caught like every other failure in the loop body, which breaks out and
  returns what was collected (stop `NoPageCount`).
- `find_new_minimum` also runs after the final window. The returned `min_price`
  is the floor found on that window's last page, or the last floor used when
  that search fails.
- The backoff also sleeps after the last failed attempt before giving up.

## Model

| member | source | states |
|---|---|---|
| JsonValue.Lookup | zillow_scraper.py:240 | `d[key]` is None exactly when no member has the key; otherwise the value is one stored under it |
| JsonValue.LookupAt | zillow_scraper.py:240 | the first member holding the key gives the value |
| JsonValue.Get | zillow_scraper.py:38-45 | `item[key]` succeeds only on a dict holding the key, and then does succeed |
| JsonValue.PyLen | zillow_scraper.py:330-331 | `len` is defined exactly on strings, lists and dicts, and gives a list's length |
| Digits.ParseNat | zillow_scraper.py:95 | `int(s)` succeeds exactly on a nonempty string of decimal digits |
| Digits.NatToString | zillow_scraper.py:183-187 | `str(n)` is a nonempty digit string |
| Digits.NatToStringRoundTrip | zillow_scraper.py:183-187 | reading `str(n)` back gives `n` |
| Digits.NatToStringInjective | zillow_scraper.py:183-187 | different page numbers print differently, and equal ones alike |
| Digits.Without | zillow_scraper.py:95 | removing characters with `replace` never lengthens the text and leaves none of them |
| Digits.WithoutAppend | zillow_scraper.py:260 | removing characters distributes over concatenation |
| Digits.WithoutKeepsOthers | zillow_scraper.py:95 | every other character keeps its number of occurrences |
| Digits.WithoutEmpty | zillow_scraper.py:95 | removing characters empties a text only when all of its characters are removed ones |
| Digits.WithCommasValue | zillow_scraper.py:91-95 | a count printed with thousands separators reads back as that count once the commas are removed |
| Backoff.Schedule | zillow_scraper.py:213-214 | after the i-th failure the delay is `base_delay * 2^i`, one delay per failure |
| Backoff.ScheduleTotal | zillow_scraper.py:207-217 | k failures wait `base_delay * (2^k - 1)` in all |
| Backoff.RequestWithBackoff | zillow_scraper.py:207-217 | success at the first status 200 within `max_retries + 1` attempts, with every earlier attempt failed; giving up after `max_retries + 1` failures; raising when no answer comes; the delays in each case |
| Backoff.TwoFailuresThenSuccess | zillow_scraper.py:207-217 | statuses 500, 500, 200 succeed on the third attempt after delays `base` and `2 * base` |
| ListingCount.FromFirstRun | zillow_scraper.py:91 | the search skips exactly the characters before the first `[\d,]` one |
| ListingCount.LeadingRun | zillow_scraper.py:91 | the match is the longest `[\d,]` prefix: a prefix, all run characters, followed by the end or a non-run character |
| ListingCount.CountReadsFirstRun | zillow_scraper.py:79-100 | no span raises; no count exactly when the text has no digit or comma; a `TypeError` exactly when the first maximal `[\d,]` run is commas only; otherwise the count is that run with its commas removed, read as a number |
| ListingCount.ExtractListingCount | zillow_scraper.py:79-100 | `extract_listing_count` on the span text: a missing span raises, and `None` comes back only for a text without a digit or comma |
| ListingCount.FirstRunAtUnique | zillow_scraper.py:91 | a text has at most one first maximal `[\d,]` run, and it is the one `re.search` finds |
| ListingCount.NoFirstRunAt | zillow_scraper.py:91-93 | a text without a `[\d,]` character has no run, so `match` is falsy |
| ListingCount.CommasOnlyRun | zillow_scraper.py:95 | removing the commas from a run empties it exactly when it is commas only |
| ListingCount.FailsExactlyOnCommas | zillow_scraper.py:91-100 | a text with a run raises exactly when its first maximal run is commas only |
| ListingCount.CountAtFirstRun | zillow_scraper.py:91-96 | a text with a run that reads without raising gives a count, the number of its first maximal run with the commas removed |
| ListingCount.RunBounds | zillow_scraper.py:91 | where the first maximal run lies in the text |
| ListingCount.RunFound | zillow_scraper.py:91-96 | a text with a run never reads as no count, and a count read is that run's number |
| ListingCount.RunDigits | zillow_scraper.py:95 | a run without its commas is empty or a digit string that converts |
| ListingCount.CountRoundTrip | zillow_scraper.py:79-100 | a count printed with separators between non-run text is read back exactly |
| ListingCount.CommasOnlyFail | zillow_scraper.py:95-100 | a run of commas alone makes `int("")` fail, and the error is re-raised |
| SearchUrl.NormalizeCategory | zillow_scraper.py:107-113 | "rent" and "rental" give rental, "sale" gives sale, and everything else is refused |
| SearchUrl.UrlPath | zillow_scraper.py:173-205 | rental paths are `<location>/rentals/` and sale paths `<location>/` with no category segment; after page 1 the path ends in `<pg>_p/`, and that segment reads back as the page number |
| SearchUrl.SaleHasNoRentals | zillow_scraper.py:189-203 | a sale URL never has the `rentals/` segment after the location |
| SearchUrl.RentalHasRentals | zillow_scraper.py:173-187 | a rental URL always has the `rentals/` segment after the location |
| SearchUrl.ZillowUrl | zillow_scraper.py:102-205 | a `TypeError` exactly for a category other than "rent", "rental" and "sale"; otherwise the query state decodes to the category ("sale" gives sale, the rest rental), the page and the floor, and the path holds `rentals/` exactly when the category is not "sale" |
| SearchUrl.BuildUrl | zillow_scraper.py:116-205 | the URL of a validated category; its path is stated by `UrlPath`, its sort, facets and flags by `QueryStateSettings`, and its category, page and floor by `DecodeBuiltState` |
| SearchUrl.QueryStateSettings | zillow_scraper.py:116-170 | every query state sorts by `pricea`, shows the map and the list, and has zoom 11; a rental one sets `fr` true and `fsba`, `fsbo`, `nc`, `cmsn`, `auc`, `fore` false; a sale one has none of those facets |
| SearchUrl.SaleFacetsAbsent | zillow_scraper.py:154-170 | a sale filter holds only `price`, `sort` and `mp` |
| SearchUrl.PathShape | zillow_scraper.py:173-205 | the path is the location's page, the category segment and the page segment, in that order |
| SearchUrl.PageSegmentReadBack | zillow_scraper.py:181-203 | after page 1 the path ends in `<pg>_p/`, and the digits before `_p/` read back as the page |
| SearchUrl.RentIsRental | zillow_scraper.py:108-109 | "rent" and "rental" give the same URL |
| SearchUrl.FilterStateReadBack | zillow_scraper.py:116-170 | the filter state holds the floor under `price.min` and records its category |
| SearchUrl.PaginationReadBack | zillow_scraper.py:117-197 | the pagination field gives the page number back, and it is the empty `{}` (lines 117 and 155) exactly for page 1 (lines 174 and 191) |
| SearchUrl.DecodeBuiltState | zillow_scraper.py:116-205 | the query state names exactly the category, page and floor it was built from |
| SearchUrl.BuildUrlInjective | zillow_scraper.py:102-205 | two different searches never share a URL |
| NewMinimum.UnitPrices | zillow_scraper.py:264-267 | the unit prices convert exactly when each one does, in order |
| NewMinimum.PlainPrice | zillow_scraper.py:250 | `float(unformattedPrice)` gives a number itself, converts a string exactly when it is a digit string, and raises on null, lists and dicts |
| NewMinimum.UnitPrice | zillow_scraper.py:258-260 | a unit price converts exactly when it is a string that is a nonempty digit string once `$`, `,` and `+` are removed |
| NewMinimum.Max | zillow_scraper.py:270 | `max` is an element and no element exceeds it |
| NewMinimum.Min | zillow_scraper.py:274 | `min` is an element and no element is below it |
| NewMinimum.Below | zillow_scraper.py:270 | the comprehension keeps exactly the prices strictly below the threshold |
| NewMinimum.GroupPrice | zillow_scraper.py:262-278 | a grouped record raises exactly when a unit price fails or there are no past floors; its price is the least one below `max(past_minimums)`; it is skipped exactly when there is none |
| NewMinimum.RecordStep | zillow_scraper.py:245-281 | a record that is not a dict raises |
| NewMinimum.PlainRecordPrice | zillow_scraper.py:245-252 | a plain dict record never raises (its failure is caught and the record skipped), and it gives a price exactly when its `unformattedPrice` is present and converts, that converted value |
| NewMinimum.Steps | zillow_scraper.py:245-281 | one outcome per record, each that record's own |
| NewMinimum.ScanBack | zillow_scraper.py:241-284 | the backward scan over records `k-1` down to `0`, that is `ScanSteps` over the records' `Steps`; what decides it is stated by `ScanDecidedBy` and `ScanExhausted` |
| NewMinimum.StepsDecidedBy | zillow_scraper.py:245-284 | over record outcomes, the last one that does not skip decides the scan |
| NewMinimum.StepsExhausted | zillow_scraper.py:245-284 | over record outcomes, the scan runs out exactly when every outcome skips |
| NewMinimum.NextFloor | zillow_scraper.py:237-284 | a page without a list of list results ends in an error |
| NewMinimum.PythonIndex | zillow_scraper.py:248 | `listing_json[len - attempt]` reaches a record exactly for attempts up to twice the length |
| NewMinimum.FindNewMinimum | zillow_scraper.py:237-284 | the method returns the next floor that the backward scan specifies |
| NewMinimum.ScanRecords | zillow_scraper.py:241-284 | the `attempt_num` loop, negative indices included, gives the backward scan's result |
| NewMinimum.ScanDecidedBy | zillow_scraper.py:245-284 | the last record that is not skipped decides the result |
| NewMinimum.ScanExhausted | zillow_scraper.py:245-284 | the scan runs out exactly when every record is skipped |
| NewMinimum.NoPriceEndsInError | zillow_scraper.py:248 | a page with no usable price, or with no records, ends in an IndexError |
| NewMinimum.RecordStepSeesHighestFloor | zillow_scraper.py:270 | a record depends on the past floors only through their maximum |
| NewMinimum.ScanSeesHighestFloor | zillow_scraper.py:245-284 | so does the scan |
| NewMinimum.NextFloorSeesHighestFloor | zillow_scraper.py:237-284 | two floor histories with the same maximum give the same next floor |
| NewMinimum.MaxRepeatLast | zillow_scraper.py:430 | recording the same floor a second time leaves the maximum unchanged |
| NewMinimum.PlainUnparsableSkipped | zillow_scraper.py:248-252 | a plain record whose price does not convert is skipped silently |
| NewMinimum.SingleUnitUnfiltered | zillow_scraper.py:256-261 | a single unit gives its own price, whatever the past floors |
| NewMinimum.NoUnitsSkipped | zillow_scraper.py:279-281 | a grouped record with no units is skipped |
| NewMinimum.MalformedUnitFails | zillow_scraper.py:258-267 | a unit price that does not convert is not caught |
| NewMinimum.GroupedRecordPrice | zillow_scraper.py:262-278 | several units give the least converted price strictly below `max(past_minimums)`; the record is skipped exactly when there is none |
| NewMinimum.DecoratedUnitPrice | zillow_scraper.py:258-260 | a price written with `$`, thousands separators and trailing `+` converts to its number |
| NewMinimum.GroupExampleAsWritten | zillow_scraper.py:262-274 | units `$1,200+`, `$950`, `$2,000` with past floors `[0, 1000]` give 950 |
| Crawl.CeilDivIsCeiling | zillow_scraper.py:391 | `ceil(n / d)` pages hold `n` listings, and one page fewer would not |
| Crawl.CeilDiv | zillow_scraper.py:391 | no pages exactly for no listings, and never more pages than listings |
| Crawl.PageUrlsInOrder | zillow_scraper.py:404-406 | a window's i-th URL is the one for page i + 1 |
| Crawl.RepeatCopies | zillow_scraper.py:426 | every pause lasts `time_between_scrapes` |
| Crawl.OpenWindowShape | zillow_scraper.py:368-394 | page 1 is always requested at the current floor, and its payload is kept whenever the window goes on |
| Crawl.OpenWindow | zillow_scraper.py:368-394 | page 1 of a window; stated by `OpenWindowShape`, `OpenWindowCollects` and `OpenWindowPlan` |
| Crawl.Probe | zillow_scraper.py:311-349 | no reply, a count read that raises, a payload `json.loads` rejects or one without list results fail the scrape; otherwise the count is the extracted one (None when the span has no digit or comma), and the payload list is empty exactly when there is no script tag and otherwise holds the decoded payload |
| Crawl.ZillowSearch | zillow_scraper.py:371 | the crawl asks for each page and floor exactly the URL `zillow_url_constructor` builds, and pauses `time_between_scrapes` |
| Crawl.SearchCategory | zillow_scraper.py:371 | the crawl's category gives exactly the URLs `zillow_url_constructor` builds for the property type |
| Crawl.ScrapeOutcome | zillow_scraper.py:286-444 | an invalid property type fails before any request; a probe that raises fails the scrape and nothing else does; a test run returns the probe's state; a full run only appends to what the probe collected |
| Crawl.Scrape | zillow_scraper.py:286-444 | `zillow_scraper`; stated by `ScrapeOutcome` |
| Crawl.ZillowScraper | zillow_scraper.py:286-444 | the method returns the scrape that the functional model specifies |
| Crawl.CollectWindows | zillow_scraper.py:366-436 | the `while run_dynamic_scraper` loop reaches the state of the window-by-window specification |
| Crawl.RunWindow | zillow_scraper.py:367-436 | one pass of the loop body gives the specified window |
| Crawl.CollectRemaining | zillow_scraper.py:404-426 | the `for pg_num` loop gives the specified pages, and `last` is the last payload kept |
| Crawl.RemainingPagesExtend | zillow_scraper.py:404-426 | the remaining pages only append URLs, payloads and pauses, and stop only on a failed fetch or a missing payload |
| Crawl.RemainingPages | zillow_scraper.py:404-426 | pages `pg` to `target_pages` of a window; stated by `RemainingPagesExtend`, by `RemainingPagesCollect` when no page fails, and by `RemainingPagesStop` when one does |
| Crawl.RemainingPagesStop | zillow_scraper.py:404-421 | pages that break out at page `k` requested pages 1 to `k` in order, kept the payloads of pages 1 to `k - 1` in order, and paused after each of pages 2 to `k - 1` |
| Crawl.ReadNextPage | zillow_scraper.py:404-426 | one pass of the `for pg_num` loop: a break gives the specified window, and otherwise the remaining pages continue from the next page |
| Crawl.CloseWindowExtends | zillow_scraper.py:430-431 | closing a window only appends the floor, and a failure keeps the floor |
| Crawl.WindowExtends | zillow_scraper.py:366-436 | a window only appends; a window that breaks out keeps its floor, and one that breaks out before its last page also keeps the past floors |
| Crawl.WindowStep | zillow_scraper.py:366-436 | one pass of the loop body; stated by `WindowExtends`, `WindowStepShape`, `CompletedWindow`, `BrokenWindow` and `WindowPlan` |
| Crawl.WindowStepShape | zillow_scraper.py:366-436 | a window is page 1, then pages 2 on, then the floor search, and a break at any stage is the window's result |
| Crawl.BrokenWindow | zillow_scraper.py:366-436 | a window whose fetch gives up or whose payload is missing at page `k` requested pages 1 to `k` at its floor, kept the payloads of pages 1 to `k - 1` in order, and paused after each of pages 2 to `k - 1`; a failed count read keeps page 1 only |
| Crawl.WindowBreaksLater | zillow_scraper.py:404-421 | a window that gets past page 1 and then breaks does so at a page `k` with the same pages kept |
| Crawl.OpenWindowBreaks | zillow_scraper.py:368-385 | a window that breaks at page 1 requested that page and kept nothing |
| Crawl.RunExtends | zillow_scraper.py:366-436 | the whole loop only appends to payloads, past floors, requests and pauses |
| Crawl.Run | zillow_scraper.py:366-436 | the loop for at most `fuel` windows; stated by `RunExtends`, `RunStaysRunning` and `RepeatedFloorNeverEnds` |
| Crawl.RemainingPagesCollect | zillow_scraper.py:404-426 | pages 2 to `target_pages` are requested in order, each payload kept in order, each followed by a pause |
| Crawl.CompletedWindow | zillow_scraper.py:368-431 | a window that reads all its pages requested pages 1 to `target_pages` at its floor, kept their payloads in order, paused after each page but the first, recorded its floor, and took the next floor from its last page |
| Crawl.OpenWindowCollects | zillow_scraper.py:368-385 | a window that gets past page 1 requested and kept exactly that page |
| Crawl.CloseWindowFloor | zillow_scraper.py:430-431 | the floor is recorded among the past ones before the next floor is read from the last page; a failure keeps the current floor |
| Crawl.CloseWindow | zillow_scraper.py:430-431 | the floor just used is appended to the past floors, nothing else collected changes, and the loop goes on exactly when a next floor is found |
| Crawl.OpenWindowPlan | zillow_scraper.py:388-394 | page 1 gives the count and a nonzero number of listings per page; the flag stays set exactly when at least 20 pages remain, and `target_pages` becomes the page count otherwise |
| Crawl.WindowPlan | zillow_scraper.py:387-394 | a window keeps the flag set, with 20 pages per window, unless its page 1 says fewer than 20 pages remain; then `target_pages` is that count |
| Crawl.OpenWindowSees | zillow_scraper.py:368-394 | page 1 depends only on the floor, the page target and the flag |
| Crawl.RemainingPagesSee | zillow_scraper.py:404-426 | so do the remaining pages |
| Crawl.CloseWindowSees | zillow_scraper.py:430-431 | the next floor depends on the past floors only through their maximum |
| Crawl.WindowSeesHighestFloor | zillow_scraper.py:366-431 | two states that agree on floor, page target, flag and highest past floor run the same window |
| Crawl.StuckAgain | zillow_scraper.py:366-431 | a full window that ends at the floor it started from is followed by another such window |
| Crawl.RunStaysRunning | zillow_scraper.py:366 | a property that every window keeps, without breaking out, keeps the loop running |
| Crawl.RepeatedFloorNeverEnds | zillow_scraper.py:366-431 | once a full window finds its own floor again, the loop never ends and uses up any bound on windows |
| FloorPlans.Children | zillow_scraper.py:452-457 | the values of a dict and the items of a list are the parts searched, each smaller than the whole |
| FloorPlans.FloorPlans | zillow_scraper.py:447-461 | `extract_floor_plans`: a result is never null (a null `floorPlans` reads as not found) |
| FloorPlans.NoKeyNoResult | zillow_scraper.py:447-461 | a tree in which no dict holds `floorPlans` gives None |
| FloorPlans.ResultIsSomeFloorPlans | zillow_scraper.py:447-461 | a result is never null and is the `floorPlans` value of some dict in the tree |
| FloorPlans.OwnKeyFirst | zillow_scraper.py:448-450 | a dict holding the key answers with its own value and its values are not searched: a non-null value is the result, a null one gives None |
| FloorPlans.FirstChildWins | zillow_scraper.py:452-460 | otherwise the first child, in order, that has a result gives it |
| FloorPlans.NoChildNoResult | zillow_scraper.py:451-461 | a dict without the key (or a list) whose children all give None gives None, even when a deeper dict holds the key |
| RentalFrame.Iterate | zillow_scraper.py:19 | `for item in` is defined exactly on lists, dicts and strings, and visits a list's items |
| RentalFrame.ClassifyListing | zillow_scraper.py:20-67 | a listing gives a row exactly when it is a dict with the eight common fields and, if it has an `area`, beds, baths and an unformatted price; a row is regular exactly when the listing has an `area` key |
| RentalFrame.ClassifiedByArea | zillow_scraper.py:20-67 | a listing gives a row exactly when every field it reads is present; the row carries the listing's status text, detail URL, latitude, longitude and address fields; it is regular exactly when it has an `area` key; a regular row carries its beds, baths, area and price; a nested row carries none |
| RentalFrame.ListingRows | zillow_scraper.py:19-67 | a page gives at most one row per listing |
| RentalFrame.MakeFrameRentals | zillow_scraper.py:17-69 | the frame gains the rows of every page, in order, or the call raises when a page has no list results |
| RentalFrame.AllRows | zillow_scraper.py:17-69 | the rows of all pages, or None when one page raises; stated by `AllRowsFailFrom` and by `MakeFrameRentals` |
| RentalFrame.AppendPage | zillow_scraper.py:18-19 | one page adds its rows, or raises when its listings cannot be reached |
| RentalFrame.AppendListingRows | zillow_scraper.py:19-67 | the inner loop appends one row per listing that classifies |
| RentalFrame.AppendListing | zillow_scraper.py:20-67 | one listing appends its row if it classifies and nothing otherwise |
| RentalFrame.AllRowsFailFrom | zillow_scraper.py:18-19 | once one page raises, the whole call does |
| RentalFrame.SkippedListingDropsOut | zillow_scraper.py:66-67 | a listing that fails is dropped without disturbing the rows around it |
| RentalFrame.ListingRowsAppend | zillow_scraper.py:19-67 | the rows of two runs of listings are the rows of each, in order |

## Left out

- HTTP, BeautifulSoup and `json.loads` are outside the model. A response is already reduced to the count span's text and the payload.
- `extract_zillow_page_json` is not modelled as a function. Its three outcomes are the cases of `Crawl.Payload`.
- `time.sleep` and `print` are outside the model. Pauses and backoff delays are recorded in lists instead.
- The request headers are not modelled: they never change what the crawl does with an answer.
- JSON numbers, prices and floors are natural numbers. `float()` accepts only digit strings here: no decimal point, sign, exponent, whitespace, `inf` or `nan`.
- `math.ceil(num_listings / num_listings_per_page)` is the exact integer ceiling. Float rounding of very large counts is not modelled.
- Regular-expression `\d` stands for the ASCII digits only. Python also matches other Unicode digits.
- The query state is the dict the source builds. Its rendering is not modelled: `str`, the `True`/`False` replacement and percent-encoding. So the `1500.0` form a float floor takes after the first window is not captured.
- A decoded object is assumed to hold each key once; a lookup takes the first member with the key.
- `unit_number` is always None in `make_frame_rentals` and is not a field of `RentalFrame.Row`.
- The pandas frame is a sequence of rows, and `frame.append` is concatenation.
- `make_frame_sales`, `rental_frame_expander`, `get_units_from_detailed_url`, `get_hoa_fee`, `collect_real_estate_data` and `setup.py` are not part of this model.
- Crawl.RunWindow: `fetch` stands for the whole of `make_request_with_backoff`. Its retry schedule is modelled in `Backoff`, but the crawl does not compose with it. Giving up and raising both appear as None, and both end the loop the same way.
- Crawl.CollectWindows: runs at most `fuel` windows, where the source loops until a window stops. `Crawl.RepeatedFloorNeverEnds` shows states from which the source never stops.
- Crawl.Run: bounded by the same `fuel` on windows, for the same reason.
- Crawl.Scrape: bounded by the same `fuel` on windows, for the same reason.
- Crawl.ZillowScraper: bounded by the same `fuel` on windows, for the same reason.
- `fetch` and `probe` are functions: a URL requested twice gets the same answer both times. Answers that change between requests to the same URL are not modelled, and `Crawl.RepeatedFloorNeverEnds` depends on this.
