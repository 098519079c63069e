/**
 * The crawl of `zillow_scraper`: validate the property type, probe the listing count,
 * then collect windows of at most 20 result pages, sorted by ascending price, each
 * window starting at the floor the previous one found, until a window holds fewer
 * than 20 pages or a step fails.
 *
 * The network is an oracle: `probe` answers the plain GET of the probe URL, and `fetch`
 * answers `make_request_with_backoff` for a search URL, None when the retries ran out.
 * A response is already cut down to what the crawl reads from its HTML: the text of
 * the `result-count` span and the `__NEXT_DATA__` payload.
 */
module Crawl {
  import opened Wrappers
  import opened JsonValue
  import opened ListingCount
  import opened SearchUrl
  import opened NewMinimum

  /** What `extract_zillow_page_json` makes of a page: no script tag, a payload
    * `json.loads` rejects, or the decoded payload. */
  datatype Payload = NoScript | BadJson | Parsed(doc: Json)

  /** A fetched page: the text of its `result-count` span, if any, and its payload. */
  datatype Response = Response(countText: Option<string>, payload: Payload)

  /**
   * What stays fixed across a crawl: the URL requested for page `pg` at floor `minPrice`
   * (`zillow_url_constructor(city, property_type, pg, min_price)`, see `ZillowSearch`)
   * and the pause after each page but the first.
   */
  datatype Search = Search(pageUrl: (nat, nat) -> Url, pause: nat)

  /** The search of a city and a validated category: its page URLs are those `BuildUrl` makes. */
  function ZillowSearch(city: string, category: Category, pause: nat): (s: Search)
    ensures s.pause == pause
    ensures forall pg: nat, minPrice: nat :: s.pageUrl(pg, minPrice) == BuildUrl(city, category, pg, minPrice)
  {
    Search((pg: nat, minPrice: nat) => BuildUrl(city, category, pg, minPrice), pause)
  }

  /** The most result pages one filtered search can reach. */
  const MaxPages: nat := 20

  /**
   * The crawl's variables: the collected payloads, the current floor, the listing
   * count, the floors used so far, the pages per window and the loop flag; then,
   * as a trace of its effects, the search URLs requested and the pauses slept.
   */
  datatype State = State(
    dataList: seq<Json>,
    minPrice: nat,
    numListings: Option<nat>,
    pastMinimums: seq<nat>,
    targetPages: nat,
    running: bool,
    requested: seq<Url>,
    pauses: seq<nat>)

  /** Why a window broke out of the loop (the `except` at the end of the loop body). */
  datatype Stop =
    | FetchGaveUp            // `make_request_with_backoff` returned None
    | NoPageData             // no payload, a payload `json.loads` rejects, or a falsy one
    | NoPageCount            // no count, no list results, or no listing on page 1
    | NoNewFloor(reason: FloorError)

  /** The state after (part of) a window and whether it broke out of the loop. */
  datatype Window = Window(state: State, stop: Option<Stop>)

  /** The payload the crawl keeps from a fetched page: a decoded and truthy one. */
  function PageData(resp: Response): (d: Option<Json>)
    ensures d.Some? <==> resp.payload.Parsed? && Truthy(resp.payload.doc)
    ensures d.Some? ==> d.value == resp.payload.doc
  {
    if resp.payload.Parsed? && Truthy(resp.payload.doc) then Some(resp.payload.doc) else None
  }

  /** `len` of a payload's list results: the number of listings on the page. */
  function ListedOn(doc: Json): Option<nat> {
    match ListResults(doc)
    case None => None
    case Some(listResults) => PyLen(listResults)
  }

  /** `math.ceil(n / d)`: the fewest pages of `d` listings that hold `n` listings. */
  function CeilDiv(n: nat, d: nat): (r: nat)
    requires d > 0
    ensures r == 0 <==> n == 0
    ensures r <= n
  {
    if n == 0 then 0 else if n <= d then 1 else CeilDiv(n - d, d) + 1
  }

  /** The result is the ceiling of `n / d`: enough pages, and one fewer would not do. */
  lemma {:induction false} CeilDivIsCeiling(n: nat, d: nat)
    requires d > 0
    ensures CeilDiv(n, d) * d >= n
    ensures CeilDiv(n, d) == 0 || (CeilDiv(n, d) - 1) * d < n
  {
    if n > d {
      CeilDivIsCeiling(n - d, d);
    }
  }

  /** The URL of page `pg` of a window whose floor is `minPrice`. */
  function PageUrl(s: Search, pg: nat, minPrice: nat): Url {
    s.pageUrl(pg, minPrice)
  }

  /** The URLs of pages 1 to `k`. */
  function PageUrls(s: Search, minPrice: nat, k: nat): seq<Url> {
    if k == 0 then [] else PageUrls(s, minPrice, k - 1) + [PageUrl(s, k, minPrice)]
  }

  /** `PageUrls` lists the pages in order: its `i`-th URL is that of page `i + 1`. */
  lemma {:induction false} PageUrlsInOrder(s: Search, minPrice: nat, k: nat)
    ensures |PageUrls(s, minPrice, k)| == k
    ensures forall i :: 0 <= i < k ==> PageUrls(s, minPrice, k)[i] == PageUrl(s, i + 1, minPrice)
  {
    if k > 0 {
      PageUrlsInOrder(s, minPrice, k - 1);
    }
  }

  /** `k` copies of `x`. */
  function Repeat(x: nat, k: nat): seq<nat> {
    if k == 0 then [] else Repeat(x, k - 1) + [x]
  }

  /** `Repeat(x, k)` holds `k` elements, each of them `x`. */
  lemma {:induction false} RepeatCopies(x: nat, k: nat)
    ensures |Repeat(x, k)| == k && forall i :: 0 <= i < k ==> Repeat(x, k)[i] == x
  {
    if k > 0 {
      RepeatCopies(x, k - 1);
    }
  }

  /**
   * Page 1 of a window: request it, keep its payload, read the listing count and the
   * listings per page, and end the crawl after this window if fewer than 20 pages remain.
   */
  function OpenWindow(s: Search, fetch: Url -> Option<Response>, st: State): Window {
    var url := PageUrl(s, 1, st.minPrice);
    var st1 := st.(requested := st.requested + [url]);
    var resp := fetch(url);
    if resp.None? then Window(st1, Some(FetchGaveUp))
    else
      var data := PageData(resp.value);
      if data.None? then Window(st1, Some(NoPageData))
      else
        var st2 := st1.(dataList := st1.dataList + [data.value]);
        var count := ExtractListingCount(resp.value.countText);
        if count.Failure? then Window(st2, Some(NoPageCount))
        else if count.value.NoCount? then Window(st2.(numListings := None), Some(NoPageCount))
        else
          var st3 := st2.(numListings := Some(count.value.n));
          var perPage := ListedOn(data.value);
          if perPage.None? || perPage.value == 0 then Window(st3, Some(NoPageCount))
          else
            var pages := CeilDiv(count.value.n, perPage.value);
            if pages < MaxPages then Window(st3.(running := false, targetPages := pages), None)
            else Window(st3, None)
  }

  /** Pages `pg` to `targetPages` of a window, each followed by a pause. */
  function RemainingPages(s: Search, fetch: Url -> Option<Response>, st: State, pg: nat): Window
    decreases st.targetPages + 1 - pg
  {
    if pg > st.targetPages then Window(st, None)
    else
      var url := PageUrl(s, pg, st.minPrice);
      var st1 := st.(requested := st.requested + [url]);
      var resp := fetch(url);
      if resp.None? then Window(st1, Some(FetchGaveUp))
      else
        var data := PageData(resp.value);
        if data.None? then Window(st1, Some(NoPageData))
        else
          RemainingPages(s, fetch, st1.(dataList := st1.dataList + [data.value],
                                        pauses := st1.pauses + [s.pause]), pg + 1)
  }

  /** The end of a window: record the floor just used and find the next one on the last page. */
  function CloseWindow(st: State): (w: Window)
    requires st.dataList != []
    ensures w.state.pastMinimums == st.pastMinimums + [st.minPrice]
    ensures w.state.dataList == st.dataList && w.state.requested == st.requested && w.state.pauses == st.pauses
    ensures w.stop.None? <==> NextFloor(st.dataList[|st.dataList| - 1], w.state.pastMinimums).Success?
  {
    var past := st.pastMinimums + [st.minPrice];
    var st1 := st.(pastMinimums := past);
    match NextFloor(st.dataList[|st.dataList| - 1], past)
    case Failure(e) => Window(st1, Some(NoNewFloor(e)))
    case Success(p) => Window(st1.(minPrice := p), None)
  }

  /** Page 1 is requested in every case, and its payload kept in every window that goes on. */
  lemma OpenWindowShape(s: Search, fetch: Url -> Option<Response>, st: State)
    ensures var w := OpenWindow(s, fetch, st);
            && w.state.requested == st.requested + [PageUrl(s, 1, st.minPrice)]
            && w.state.pauses == st.pauses
            && w.state.minPrice == st.minPrice
            && w.state.pastMinimums == st.pastMinimums
            && (w.state.dataList == st.dataList
                || (PageRead(s, fetch, 1, st.minPrice).Some?
                    && w.state.dataList == st.dataList + [PageRead(s, fetch, 1, st.minPrice).value]))
            && (w.stop.None? || w.stop.value.NoPageCount? ==>
                  && PageRead(s, fetch, 1, st.minPrice).Some?
                  && w.state.dataList == st.dataList + [PageRead(s, fetch, 1, st.minPrice).value])
            && (w.stop.Some? && (w.stop.value.FetchGaveUp? || w.stop.value.NoPageData?) ==>
                  PageRead(s, fetch, 1, st.minPrice).None? && w.state.dataList == st.dataList)
  {
    var url := PageUrl(s, 1, st.minPrice);
    var st1 := st.(requested := st.requested + [url]);
    var resp := fetch(url);
    if resp.None? {
      assert OpenWindow(s, fetch, st) == Window(st1, Some(FetchGaveUp));
    } else if PageData(resp.value).None? {
      assert OpenWindow(s, fetch, st) == Window(st1, Some(NoPageData));
    } else {
      var d := PageData(resp.value).value;
      assert PageRead(s, fetch, 1, st.minPrice) == Some(d);
      var st2 := st1.(dataList := st1.dataList + [d]);
      var count := ExtractListingCount(resp.value.countText);
      if count.Failure? {
        assert OpenWindow(s, fetch, st) == Window(st2, Some(NoPageCount));
      } else if count.value.NoCount? {
        assert OpenWindow(s, fetch, st) == Window(st2.(numListings := None), Some(NoPageCount));
      } else {
        var st3 := st2.(numListings := Some(count.value.n));
        var perPage := ListedOn(d);
        if perPage.None? || perPage.value == 0 {
          assert OpenWindow(s, fetch, st) == Window(st3, Some(NoPageCount));
        } else if CeilDiv(count.value.n, perPage.value) < MaxPages {
          assert OpenWindow(s, fetch, st)
              == Window(st3.(running := false, targetPages := CeilDiv(count.value.n, perPage.value)), None);
        } else {
          assert OpenWindow(s, fetch, st) == Window(st3, None);
        }
      }
    }
  }

  lemma {:induction false} RemainingPagesKeep(s: Search, fetch: Url -> Option<Response>, st: State, pg: nat)
    ensures |RemainingPages(s, fetch, st, pg).state.dataList| >= |st.dataList|
    decreases st.targetPages + 1 - pg
  {
    if pg <= st.targetPages {
      var url := PageUrl(s, pg, st.minPrice);
      var st1 := st.(requested := st.requested + [url]);
      var resp := fetch(url);
      if resp.Some? && PageData(resp.value).Some? {
        RemainingPagesKeep(s, fetch, st1.(dataList := st1.dataList + [PageData(resp.value).value],
                                          pauses := st1.pauses + [s.pause]), pg + 1);
      }
    }
  }

  /** One pass of the `while run_dynamic_scraper` loop body. */
  function WindowStep(s: Search, fetch: Url -> Option<Response>, st: State): Window {
    var w1 := OpenWindow(s, fetch, st);
    if w1.stop.Some? then w1
    else
      var w2 := RemainingPages(s, fetch, w1.state, 2);
      if w2.stop.Some? then w2
      else
        OpenWindowShape(s, fetch, st);
        RemainingPagesKeep(s, fetch, w1.state, 2);
        CloseWindow(w2.state)
  }

  /** A window is page 1's if that breaks out, else the remaining pages' if they do, else closed. */
  lemma WindowStepShape(s: Search, fetch: Url -> Option<Response>, st: State)
    ensures var w1 := OpenWindow(s, fetch, st);
            var w := WindowStep(s, fetch, st);
            && (w1.stop.Some? ==> w == w1)
            && (w1.stop.None? ==>
                  var w2 := RemainingPages(s, fetch, w1.state, 2);
                  && (w2.stop.Some? ==> w == w2)
                  && (w2.stop.None? ==> w2.state.dataList != [] && w == CloseWindow(w2.state)))
  {
    var w1 := OpenWindow(s, fetch, st);
    if w1.stop.None? {
      OpenWindowShape(s, fetch, st);
      RemainingPagesKeep(s, fetch, w1.state, 2);
    }
  }

  /**
   * The loop, for at most `fuel` windows: it ends when a window leaves the flag
   * cleared or breaks out.
   */
  function Run(s: Search, fetch: Url -> Option<Response>, st: State, fuel: nat): State
    decreases fuel
  {
    if !st.running || fuel == 0 then st
    else
      var w := WindowStep(s, fetch, st);
      if w.stop.Some? then w.state else Run(s, fetch, w.state, fuel - 1)
  }

  /** One turn of the loop: a window that breaks out ends it. */
  lemma RunStep(s: Search, fetch: Url -> Option<Response>, st: State, fuel: nat)
    requires st.running && fuel > 0
    ensures var w := WindowStep(s, fetch, st);
            Run(s, fetch, st, fuel) == Run(s, fetch, w.state, if w.stop.Some? then 0 else fuel - 1)
  {
  }

  /** Both raise TypeError in the source. */
  datatype ScrapeError = InvalidPropertyType | ProbeFailed

  /** The probe URL: the city's listing page for the property type, without filters. */
  function ProbeUrl(propertyType: string, city: string): string {
    "https://www.zillow.com/homes/for_" + propertyType + "/" + city
  }

  /**
   * The probe: its listing count and payload, if the page has a script tag. Any
   * exception (no reply, no count span, a count run of commas only, a payload
   * `json.loads` rejects, a payload without list results) fails the scrape.
   */
  function Probe(resp: Option<Response>): (r: Result<(seq<Json>, Option<nat>), ScrapeError>)
    ensures resp.None? ==> r == Failure(ProbeFailed)
    ensures resp.Some? ==>
              (r.Failure? <==>
                 || ExtractListingCount(resp.value.countText).Failure?
                 || resp.value.payload.BadJson?
                 || (resp.value.payload.Parsed? && ListedOn(resp.value.payload.doc).None?))
    ensures r.Failure? ==> r.error == ProbeFailed
    ensures r.Success? ==>
              var count := ExtractListingCount(resp.value.countText).value;
              && (r.value.1.Some? <==> count.Listings?)
              && (r.value.1.Some? ==> r.value.1.value == count.n)
              && (r.value.0 == [] <==> resp.value.payload.NoScript?)
              && (resp.value.payload.Parsed? ==> r.value.0 == [resp.value.payload.doc])
  {
    if resp.None? then Failure(ProbeFailed)
    else
      var count := ExtractListingCount(resp.value.countText);
      if count.Failure? then Failure(ProbeFailed)
      else
        var numListings := if count.value.Listings? then Some(count.value.n) else None;
        match resp.value.payload
        case NoScript => Success(([], numListings))
        case BadJson => Failure(ProbeFailed)
        case Parsed(doc) =>
          if ListedOn(doc).None? then Failure(ProbeFailed) else Success(([doc], numListings))
  }

  /** The loop variables after the probe. */
  function Start(dataList: seq<Json>, minPrice: nat, numListings: Option<nat>): State {
    State(dataList, minPrice, numListings, [0], MaxPages, true, [], [])
  }

  /** The category `zillow_url_constructor` makes of a valid property type. */
  function SearchCategory(propertyType: string): (c: Category)
    requires propertyType == "sale" || propertyType == "rent"
    ensures forall city: string, pg: nat, minPrice: nat {:trigger ZillowUrl(city, propertyType, pg, minPrice)} ::
              ZillowUrl(city, propertyType, pg, minPrice) == Success(BuildUrl(city, c, pg, minPrice))
  {
    if propertyType == "rent" then Rental else Sale
  }

  /**
   * `zillow_scraper(city, property_type, time_between_scrapes, min_price, testing)` with at
   * most `fuel` windows; the source's result dict is the final state's `dataList`,
   * `minPrice` and `numListings`.
   */
  function Scrape(city: string, propertyType: string, pause: nat, minPrice: nat, testing: bool,
                  probe: string -> Option<Response>, fetch: Url -> Option<Response>,
                  fuel: nat): Result<State, ScrapeError>
  {
    if propertyType != "sale" && propertyType != "rent" then Failure(InvalidPropertyType)
    else
      match Probe(probe(ProbeUrl(propertyType, city)))
      case Failure(e) => Failure(e)
      case Success((dataList, numListings)) =>
        var st := Start(dataList, minPrice, numListings);
        if testing then Success(st)
        else Success(Run(ZillowSearch(city, SearchCategory(propertyType), pause), fetch, st, fuel))
  }

  /**
   * What a scrape returns: an invalid property type fails before any request, a probe
   * that raises fails the scrape, a test run stops at the probe, and a full run only
   * appends to the probe's payloads and to the floor list `[0]`.
   */
  lemma ScrapeOutcome(city: string, propertyType: string, pause: nat, minPrice: nat, testing: bool,
                      probe: string -> Option<Response>, fetch: Url -> Option<Response>, fuel: nat)
    ensures var r := Scrape(city, propertyType, pause, minPrice, testing, probe, fetch, fuel);
            var probed := Probe(probe(ProbeUrl(propertyType, city)));
            && (propertyType != "sale" && propertyType != "rent" ==> r == Failure(InvalidPropertyType))
            && (propertyType == "sale" || propertyType == "rent" ==>
                  && (r.Failure? <==> probed.Failure?)
                  && (r.Failure? ==> r.error == ProbeFailed)
                  && (r.Success? ==>
                        var start := Start(probed.value.0, minPrice, probed.value.1);
                        && Extends(start, r.value)
                        && (testing ==> r.value == start)))
  {
    if propertyType == "sale" || propertyType == "rent" {
      var probed := Probe(probe(ProbeUrl(propertyType, city)));
      if probed.Success? && !testing {
        var start := Start(probed.value.0, minPrice, probed.value.1);
        RunExtends(ZillowSearch(city, SearchCategory(propertyType), pause), fetch, start, fuel);
      }
    }
  }

  /** The `while run_dynamic_scraper` loop and what precedes it. */
  method ZillowScraper(city: string, propertyType: string, pause: nat, minPrice: nat, testing: bool,
                       probe: string -> Option<Response>, fetch: Url -> Option<Response>,
                       fuel: nat) returns (r: Result<State, ScrapeError>)
    ensures r == Scrape(city, propertyType, pause, minPrice, testing, probe, fetch, fuel)
  {
    if propertyType != "sale" && propertyType != "rent" {
      return Failure(InvalidPropertyType);
    }
    var probed := Probe(probe(ProbeUrl(propertyType, city)));
    if probed.Failure? {
      return Failure(probed.error);
    }
    var start := Start(probed.value.0, minPrice, probed.value.1);
    if testing {
      return Success(start);
    }
    var s := ZillowSearch(city, SearchCategory(propertyType), pause);
    var st := CollectWindows(s, fetch, start, fuel);
    return Success(st);
  }

  /** `while run_dynamic_scraper`, for at most `fuel` windows. */
  method CollectWindows(s: Search, fetch: Url -> Option<Response>, start: State, fuel: nat)
    returns (st: State)
    ensures st == Run(s, fetch, start, fuel)
  {
    st := start;
    var left := fuel;
    ghost var result := Run(s, fetch, start, fuel);
    while st.running && left > 0
      invariant Run(s, fetch, st, left) == result
      decreases left
    {
      var w := RunWindow(s, fetch, st);
      RunStep(s, fetch, st, left);
      // A window that fails breaks out of the loop: no window follows it.
      st, left := w.state, if w.stop.Some? then 0 else left - 1;
    }
  }

  /** One window of the loop body: page 1, the remaining pages, the new floor. */
  method RunWindow(s: Search, fetch: Url -> Option<Response>, st: State) returns (w: Window)
    ensures w == WindowStep(s, fetch, st)
  {
    var cur := st;
    var url := PageUrl(s, 1, cur.minPrice);
    cur := cur.(requested := cur.requested + [url]);
    var resp := fetch(url);
    if resp.None? {
      return Window(cur, Some(FetchGaveUp));
    }
    var data := PageData(resp.value);
    if data.None? {
      return Window(cur, Some(NoPageData));
    }
    cur := cur.(dataList := cur.dataList + [data.value]);
    var count := ExtractListingCount(resp.value.countText);
    if count.Failure? {
      return Window(cur, Some(NoPageCount));
    }
    if count.value.NoCount? {
      return Window(cur.(numListings := None), Some(NoPageCount));
    }
    cur := cur.(numListings := Some(count.value.n));
    var perPage := ListedOn(data.value);
    if perPage.None? || perPage.value == 0 {
      return Window(cur, Some(NoPageCount));
    }
    var pages := CeilDiv(count.value.n, perPage.value);
    if pages < MaxPages {
      cur := cur.(running := false, targetPages := pages);
    }
    assert OpenWindow(s, fetch, st) == Window(cur, None);
    var last;
    w, last := CollectRemaining(s, fetch, cur, data.value);
    if w.stop.Some? {
      return;
    }
    cur := w.state.(pastMinimums := w.state.pastMinimums + [w.state.minPrice]);
    var floor := FindNewMinimum(last, cur.pastMinimums);
    if floor.Failure? {
      return Window(cur, Some(NoNewFloor(floor.error)));
    }
    return Window(cur.(minPrice := floor.value), None);
  }

  /** The `for pg_num in range(2, target_pages + 1)` loop; `last` is the payload of the last page read. */
  method CollectRemaining(s: Search, fetch: Url -> Option<Response>, st: State, data: Json)
    returns (w: Window, last: Json)
    requires st.dataList != [] && st.dataList[|st.dataList| - 1] == data
    ensures w == RemainingPages(s, fetch, st, 2)
    ensures w.stop.None? ==> w.state.dataList != [] && w.state.dataList[|w.state.dataList| - 1] == last
  {
    var cur := st;
    last := data;
    var pg := 2;
    while pg <= cur.targetPages
      invariant 2 <= pg
      invariant cur.targetPages == st.targetPages
      invariant RemainingPages(s, fetch, cur, pg) == RemainingPages(s, fetch, st, 2)
      invariant cur.dataList != [] && cur.dataList[|cur.dataList| - 1] == last
      decreases cur.targetPages + 1 - pg
    {
      var next, stop := ReadNextPage(s, fetch, cur, pg);
      if stop.Some? {
        return Window(next, stop), last;
      }
      cur := next;
      last := cur.dataList[|cur.dataList| - 1];
      pg := pg + 1;
    }
    return Window(cur, None), last;
  }

  /**
   * One pass of the `for pg_num` loop body: request page `pg`, then break out, or keep
   * its payload and pause; either way what is left of the window is unchanged.
   */
  method ReadNextPage(s: Search, fetch: Url -> Option<Response>, cur: State, pg: nat)
    returns (next: State, stop: Option<Stop>)
    requires pg <= cur.targetPages
    ensures stop.Some? ==> RemainingPages(s, fetch, cur, pg) == Window(next, stop)
    ensures stop.None? ==> RemainingPages(s, fetch, cur, pg) == RemainingPages(s, fetch, next, pg + 1)
    ensures stop.None? ==> next.targetPages == cur.targetPages && next.dataList != []
  {
    var url := PageUrl(s, pg, cur.minPrice);
    next := cur.(requested := cur.requested + [url]);
    var resp := fetch(url);
    if resp.None? {
      return next, Some(FetchGaveUp);
    }
    var page := PageData(resp.value);
    if page.None? {
      return next, Some(NoPageData);
    }
    next := next.(dataList := next.dataList + [page.value]);
    next := next.(pauses := next.pauses + [s.pause]);
    stop := None;
  }

  /** Nothing the crawl records is ever taken back. */
  predicate Extends(a: State, b: State) {
    && a.dataList <= b.dataList
    && a.pastMinimums <= b.pastMinimums
    && a.requested <= b.requested
    && a.pauses <= b.pauses
  }

  lemma {:induction false} RemainingPagesExtend(s: Search, fetch: Url -> Option<Response>, st: State, pg: nat)
    ensures var w := RemainingPages(s, fetch, st, pg);
            && Extends(st, w.state)
            && w.state.(dataList := st.dataList, requested := st.requested, pauses := st.pauses) == st
            && (w.stop.Some? ==> w.stop.value.FetchGaveUp? || w.stop.value.NoPageData?)
    decreases st.targetPages + 1 - pg
  {
    if pg <= st.targetPages {
      var url := PageUrl(s, pg, st.minPrice);
      var st1 := st.(requested := st.requested + [url]);
      var resp := fetch(url);
      if resp.Some? && PageData(resp.value).Some? {
        RemainingPagesExtend(s, fetch, st1.(dataList := st1.dataList + [PageData(resp.value).value],
                                            pauses := st1.pauses + [s.pause]), pg + 1);
      }
    }
  }

  lemma CloseWindowExtends(st: State)
    requires st.dataList != []
    ensures var w := CloseWindow(st);
            && Extends(st, w.state)
            && (w.stop.Some? ==> w.state.minPrice == st.minPrice && w.stop.value.NoNewFloor?)
  {
  }

  /**
   * A window only appends to what the crawl recorded; a window that breaks out keeps
   * its floor, and one that breaks out before its last page also keeps the list of
   * past floors.
   */
  lemma WindowExtends(s: Search, fetch: Url -> Option<Response>, st: State)
    ensures var w := WindowStep(s, fetch, st);
            && Extends(st, w.state)
            && (w.stop.Some? ==> w.state.minPrice == st.minPrice)
            && (w.stop.Some? && !w.stop.value.NoNewFloor? ==> w.state.pastMinimums == st.pastMinimums)
  {
    var w1 := OpenWindow(s, fetch, st);
    OpenWindowShape(s, fetch, st);
    if w1.stop.None? {
      var w2 := RemainingPages(s, fetch, w1.state, 2);
      RemainingPagesExtend(s, fetch, w1.state, 2);
      if w2.stop.None? {
        OpenWindowShape(s, fetch, st);
        RemainingPagesKeep(s, fetch, w1.state, 2);
        CloseWindowExtends(w2.state);
        assert WindowStep(s, fetch, st) == CloseWindow(w2.state);
      }
    }
  }

  /** The whole crawl only appends to what it recorded. */
  lemma {:induction false} RunExtends(s: Search, fetch: Url -> Option<Response>, st: State, fuel: nat)
    ensures Extends(st, Run(s, fetch, st, fuel))
    decreases fuel
  {
    if st.running && fuel > 0 {
      var w := WindowStep(s, fetch, st);
      var left := if w.stop.Some? then 0 else fuel - 1;
      RunStep(s, fetch, st, fuel);
      WindowExtends(s, fetch, st);
      RunExtends(s, fetch, w.state, left);
      ExtendsTransitive(st, w.state, Run(s, fetch, w.state, left));
    } else {
      assert Run(s, fetch, st, fuel) == st;
    }
  }

  lemma ExtendsTransitive(a: State, b: State, c: State)
    requires Extends(a, b) && Extends(b, c)
    ensures Extends(a, c)
  {
  }

  /** The payload kept from page `pg` at floor `minPrice`, if it was fetched and it is data. */
  function PageRead(s: Search, fetch: Url -> Option<Response>, pg: nat, minPrice: nat): Option<Json> {
    var resp := fetch(PageUrl(s, pg, minPrice));
    if resp.None? then None else PageData(resp.value)
  }

  /** The payloads of pages 1 to `k`, in that order, if every one of them was read. */
  function PagesRead(s: Search, fetch: Url -> Option<Response>, minPrice: nat, k: nat): (r: Option<seq<Json>>)
    ensures r.Some? ==> |r.value| == k
  {
    if k == 0 then Some([])
    else match (PagesRead(s, fetch, minPrice, k - 1), PageRead(s, fetch, k, minPrice))
      case (Some(ds), Some(d)) => Some(ds + [d])
      case _ => None
  }

  /**
   * From `base`, pages 1 to `k` of the window at floor `base.minPrice` were requested in
   * order, each one's payload was kept in order, and a pause followed each page after the first.
   */
  predicate Collected(s: Search, fetch: Url -> Option<Response>, base: State, st: State, k: nat) {
    && k >= 1
    && st.requested == base.requested + PageUrls(s, base.minPrice, k)
    && PagesRead(s, fetch, base.minPrice, k).Some?
    && st.dataList == base.dataList + PagesRead(s, fetch, base.minPrice, k).value
    && st.pauses == base.pauses + Repeat(s.pause, k - 1)
  }

  lemma {:induction false} RemainingPagesCollect(s: Search, fetch: Url -> Option<Response>, base: State, st: State, pg: nat)
    requires 2 <= pg && st.minPrice == base.minPrice
    requires Collected(s, fetch, base, st, pg - 1)
    ensures var w := RemainingPages(s, fetch, st, pg);
            w.stop.None? ==> Collected(s, fetch, base, w.state, if st.targetPages < pg then pg - 1 else st.targetPages)
    decreases st.targetPages + 1 - pg
  {
    if pg > st.targetPages {
      assert RemainingPages(s, fetch, st, pg) == Window(st, None);
    } else {
      var url := PageUrl(s, pg, st.minPrice);
      var st1 := st.(requested := st.requested + [url]);
      var resp := fetch(url);
      if resp.None? {
        assert RemainingPages(s, fetch, st, pg) == Window(st1, Some(FetchGaveUp));
      } else if PageData(resp.value).None? {
        assert RemainingPages(s, fetch, st, pg) == Window(st1, Some(NoPageData));
      } else {
        var d := PageData(resp.value).value;
        var st2 := st1.(dataList := st1.dataList + [d], pauses := st1.pauses + [s.pause]);
        assert RemainingPages(s, fetch, st, pg) == RemainingPages(s, fetch, st2, pg + 1);
        assert st2.requested == base.requested + PageUrls(s, base.minPrice, pg);
        assert st2.pauses == base.pauses + Repeat(s.pause, pg - 1);
        assert PagesRead(s, fetch, base.minPrice, pg) == Some(PagesRead(s, fetch, base.minPrice, pg - 1).value + [d]);
        assert st2.dataList == base.dataList + PagesRead(s, fetch, base.minPrice, pg).value;
        RemainingPagesCollect(s, fetch, base, st2, pg + 1);
      }
    }
  }

  /**
   * From `base`, the window at floor `base.minPrice` requested pages 1 to `k` in order and
   * broke out at page `k`, which gave nothing to keep: the payloads of pages 1 to `k - 1`
   * stay, in order, with a pause after each of them but the first.
   */
  predicate BrokeAt(s: Search, fetch: Url -> Option<Response>, base: State, st: State, k: nat) {
    && k >= 1
    && st.requested == base.requested + PageUrls(s, base.minPrice, k)
    && PageRead(s, fetch, k, base.minPrice).None?
    && PagesRead(s, fetch, base.minPrice, k - 1).Some?
    && st.dataList == base.dataList + PagesRead(s, fetch, base.minPrice, k - 1).value
    && st.pauses == base.pauses + Repeat(s.pause, if k < 2 then 0 else k - 2)
  }

  /** Pages `pg` on that break out at page `k` keep pages 1 to `k - 1`. */
  lemma {:induction false} RemainingPagesStop(s: Search, fetch: Url -> Option<Response>, base: State, st: State, pg: nat)
    requires 2 <= pg && st.minPrice == base.minPrice
    requires Collected(s, fetch, base, st, pg - 1)
    ensures var w := RemainingPages(s, fetch, st, pg);
            w.stop.Some? ==>
              var k := |w.state.requested| - |base.requested|;
              pg <= k <= st.targetPages && BrokeAt(s, fetch, base, w.state, k)
    decreases st.targetPages + 1 - pg, 1
  {
    if pg > st.targetPages {
      assert RemainingPages(s, fetch, st, pg) == Window(st, None);
    } else if PageRead(s, fetch, pg, st.minPrice).None? {
      StopHere(s, fetch, base, st, pg);
    } else {
      StopAfter(s, fetch, base, st, pg);
    }
  }

  /** `RemainingPagesStop` when page `pg` gives nothing to keep. */
  lemma StopHere(s: Search, fetch: Url -> Option<Response>, base: State, st: State, pg: nat)
    requires 2 <= pg <= st.targetPages && st.minPrice == base.minPrice
    requires Collected(s, fetch, base, st, pg - 1)
    requires PageRead(s, fetch, pg, st.minPrice).None?
    ensures var w := RemainingPages(s, fetch, st, pg);
            w.stop.Some? ==>
              var k := |w.state.requested| - |base.requested|;
              pg <= k <= st.targetPages && BrokeAt(s, fetch, base, w.state, k)
  {
    var url := PageUrl(s, pg, st.minPrice);
    var st1 := st.(requested := st.requested + [url]);
    assert RemainingPages(s, fetch, st, pg).state == st1;
    BreakHere(s, fetch, base, st, pg);
  }

  /** `RemainingPagesStop` when page `pg` is read and kept. */
  lemma {:induction false} StopAfter(s: Search, fetch: Url -> Option<Response>, base: State, st: State, pg: nat)
    requires 2 <= pg <= st.targetPages && st.minPrice == base.minPrice
    requires Collected(s, fetch, base, st, pg - 1)
    requires PageRead(s, fetch, pg, st.minPrice).Some?
    ensures var w := RemainingPages(s, fetch, st, pg);
            w.stop.Some? ==>
              var k := |w.state.requested| - |base.requested|;
              pg <= k <= st.targetPages && BrokeAt(s, fetch, base, w.state, k)
    decreases st.targetPages + 1 - pg, 0
  {
    var url := PageUrl(s, pg, st.minPrice);
    var st1 := st.(requested := st.requested + [url]);
    var d := PageRead(s, fetch, pg, st.minPrice).value;
    var st2 := st1.(dataList := st1.dataList + [d], pauses := st1.pauses + [s.pause]);
    assert RemainingPages(s, fetch, st, pg) == RemainingPages(s, fetch, st2, pg + 1);
    CollectOneMore(s, fetch, base, st, pg);
    RemainingPagesStop(s, fetch, base, st2, pg + 1);
  }

  lemma CollectOneMore(s: Search, fetch: Url -> Option<Response>, base: State, st: State, pg: nat)
    requires 2 <= pg && st.minPrice == base.minPrice
    requires Collected(s, fetch, base, st, pg - 1)
    requires PageRead(s, fetch, pg, base.minPrice).Some?
    ensures Collected(s, fetch, base,
                      st.(requested := st.requested + [PageUrl(s, pg, st.minPrice)],
                          dataList := st.dataList + [PageRead(s, fetch, pg, base.minPrice).value],
                          pauses := st.pauses + [s.pause]), pg)
  {
    var d := PageRead(s, fetch, pg, base.minPrice).value;
    assert PagesRead(s, fetch, base.minPrice, pg) == Some(PagesRead(s, fetch, base.minPrice, pg - 1).value + [d]);
  }

  lemma BreakHere(s: Search, fetch: Url -> Option<Response>, base: State, st: State, pg: nat)
    requires 2 <= pg && st.minPrice == base.minPrice
    requires Collected(s, fetch, base, st, pg - 1)
    requires PageRead(s, fetch, pg, base.minPrice).None?
    ensures var st1 := st.(requested := st.requested + [PageUrl(s, pg, st.minPrice)]);
            var k := |st1.requested| - |base.requested|;
            k == pg && BrokeAt(s, fetch, base, st1, k)
  {
    var st1 := st.(requested := st.requested + [PageUrl(s, pg, st.minPrice)]);
    assert st1.requested == base.requested + PageUrls(s, base.minPrice, pg);
    PageUrlsInOrder(s, base.minPrice, pg);
  }

  /**
   * A window that breaks out because a page gave nothing to keep (the retries ran out,
   * or no usable payload) returns the pages it read before that one, all kept in order;
   * one that breaks out on page 1's count keeps page 1.
   */
  lemma BrokenWindow(s: Search, fetch: Url -> Option<Response>, st: State)
    ensures var w := WindowStep(s, fetch, st);
            && (w.stop.Some? && (w.stop.value.FetchGaveUp? || w.stop.value.NoPageData?) ==>
                  var k := |w.state.requested| - |st.requested|;
                  1 <= k <= WindowPages(w.state.targetPages) && BrokeAt(s, fetch, st, w.state, k))
            && (w.stop.Some? && w.stop.value.NoPageCount? ==> Collected(s, fetch, st, w.state, 1))
  {
    WindowStepShape(s, fetch, st);
    var w1 := OpenWindow(s, fetch, st);
    if w1.stop.Some? {
      OpenWindowBreaks(s, fetch, st);
    } else {
      var w2 := RemainingPages(s, fetch, w1.state, 2);
      if w2.stop.Some? {
        WindowBreaksLater(s, fetch, st);
      } else {
        CloseWindowExtends(w2.state);
      }
    }
  }

  /** A window that gets past page 1 and then breaks out does so at a later page. */
  lemma WindowBreaksLater(s: Search, fetch: Url -> Option<Response>, st: State)
    requires OpenWindow(s, fetch, st).stop.None?
    ensures var w := RemainingPages(s, fetch, OpenWindow(s, fetch, st).state, 2);
            w.stop.Some? ==>
              && (w.stop.value.FetchGaveUp? || w.stop.value.NoPageData?)
              && var k := |w.state.requested| - |st.requested|;
                 1 <= k <= WindowPages(w.state.targetPages) && BrokeAt(s, fetch, st, w.state, k)
  {
    OpenWindowCollects(s, fetch, st);
    OpenWindowShape(s, fetch, st);
    LaterPageBreaks(s, fetch, st, OpenWindow(s, fetch, st).state);
  }

  lemma LaterPageBreaks(s: Search, fetch: Url -> Option<Response>, base: State, mid: State)
    requires mid.minPrice == base.minPrice && Collected(s, fetch, base, mid, 1)
    ensures var w := RemainingPages(s, fetch, mid, 2);
            w.stop.Some? ==>
              && (w.stop.value.FetchGaveUp? || w.stop.value.NoPageData?)
              && var k := |w.state.requested| - |base.requested|;
                 2 <= k <= WindowPages(w.state.targetPages) && BrokeAt(s, fetch, base, w.state, k)
  {
    var w := RemainingPages(s, fetch, mid, 2);
    RemainingPagesStop(s, fetch, base, mid, 2);
    RemainingPagesExtend(s, fetch, mid, 2);
    if w.stop.Some? {
      assert w.state.targetPages == mid.targetPages;
      assert WindowPages(w.state.targetPages) == mid.targetPages;
    }
  }

  lemma OpenWindowBreaks(s: Search, fetch: Url -> Option<Response>, st: State)
    ensures var w := OpenWindow(s, fetch, st);
            && (w.stop.Some? && (w.stop.value.FetchGaveUp? || w.stop.value.NoPageData?) ==>
                  var k := |w.state.requested| - |st.requested|;
                  k == 1 && BrokeAt(s, fetch, st, w.state, k))
            && (w.stop.Some? && w.stop.value.NoPageCount? ==> Collected(s, fetch, st, w.state, 1))
  {
    var w := OpenWindow(s, fetch, st);
    OpenWindowShape(s, fetch, st);
    assert PageUrls(s, st.minPrice, 1) == [PageUrl(s, 1, st.minPrice)];
    assert Repeat(s.pause, 0) == [];
    if w.stop.Some? && w.stop.value.NoPageCount? {
      PagesReadOne(s, fetch, st.minPrice);
    } else {
      assert PagesRead(s, fetch, st.minPrice, 0) == Some([]);
    }
  }

  /** How many pages a window that gets past page 1 requests: `target_pages`, at least 1. */
  function WindowPages(target: nat): nat {
    if target == 0 then 1 else target
  }

  /**
   * A window that reads all its pages: it requested pages 1 to `target_pages` at its
   * floor, kept their payloads in order, paused after each but the first, recorded its
   * floor among the past ones, and took the next floor from the last page it read.
   */
  lemma CompletedWindow(s: Search, fetch: Url -> Option<Response>, st: State)
    ensures var w := WindowStep(s, fetch, st);
            (w.stop.None? || w.stop.value.NoNewFloor?) ==>
              && Collected(s, fetch, st, w.state, WindowPages(w.state.targetPages))
              && w.state.pastMinimums == st.pastMinimums + [st.minPrice]
              && NextFloor(w.state.dataList[|w.state.dataList| - 1], w.state.pastMinimums)
                 == (if w.stop.None? then Success(w.state.minPrice) else Failure(w.stop.value.reason))
  {
    WindowStepShape(s, fetch, st);
    var w1 := OpenWindow(s, fetch, st);
    if w1.stop.None? {
      OpenWindowCollects(s, fetch, st);
      OpenWindowShape(s, fetch, st);
      RemainingPagesCollect(s, fetch, st, w1.state, 2);
      RemainingPagesExtend(s, fetch, w1.state, 2);
      var w2 := RemainingPages(s, fetch, w1.state, 2);
      if w2.stop.None? {
        var w := CloseWindow(w2.state);
        CloseWindowFloor(w2.state);
        assert w.state.targetPages == w1.state.targetPages;
        CollectedFrame(s, fetch, st, w2.state, w.state, WindowPages(w1.state.targetPages));
      }
    }
  }

  /** `Collected` looks only at the URLs requested, the payloads kept and the pauses. */
  lemma CollectedFrame(s: Search, fetch: Url -> Option<Response>, base: State, a: State, b: State, k: nat)
    requires Collected(s, fetch, base, a, k)
    requires b.requested == a.requested && b.dataList == a.dataList && b.pauses == a.pauses
    ensures Collected(s, fetch, base, b, k)
  {
  }

  lemma OpenWindowCollects(s: Search, fetch: Url -> Option<Response>, st: State)
    ensures var w := OpenWindow(s, fetch, st);
            w.stop.None? ==> Collected(s, fetch, st, w.state, 1)
  {
    var w := OpenWindow(s, fetch, st);
    if w.stop.None? {
      OpenWindowShape(s, fetch, st);
      var d := PageRead(s, fetch, 1, st.minPrice).value;
      assert PageUrls(s, st.minPrice, 1) == [PageUrl(s, 1, st.minPrice)];
      PagesReadOne(s, fetch, st.minPrice);
      assert Repeat(s.pause, 0) == [];
    }
  }

  lemma PagesReadOne(s: Search, fetch: Url -> Option<Response>, minPrice: nat)
    requires PageRead(s, fetch, 1, minPrice).Some?
    ensures PagesRead(s, fetch, minPrice, 1) == Some([PageRead(s, fetch, 1, minPrice).value])
  {
    var d := PageRead(s, fetch, 1, minPrice).value;
    assert PagesRead(s, fetch, minPrice, 0) == Some([]);
    assert [] + [d] == [d];
  }

  lemma CloseWindowFloor(st: State)
    requires st.dataList != []
    ensures var w := CloseWindow(st);
            && w.state == st.(pastMinimums := st.pastMinimums + [st.minPrice], minPrice := w.state.minPrice)
            && (w.stop.Some? ==> w.stop.value.NoNewFloor? && w.state.minPrice == st.minPrice)
            && NextFloor(st.dataList[|st.dataList| - 1], w.state.pastMinimums)
               == (if w.stop.None? then Success(w.state.minPrice) else Failure(w.stop.value.reason))
  {
    var past := st.pastMinimums + [st.minPrice];
    var floor := NextFloor(st.dataList[|st.dataList| - 1], past);
    if floor.Failure? {
      assert CloseWindow(st) == Window(st.(pastMinimums := past), Some(NoNewFloor(floor.error)));
    } else {
      assert CloseWindow(st) == Window(st.(pastMinimums := past, minPrice := floor.value), None);
    }
  }

  /**
   * Page 1 of the window from `base` got as far as the page count: it gave a listing
   * count, which the state now holds, and a payload with at least one listing.
   */
  predicate Planned(s: Search, fetch: Url -> Option<Response>, base: State, st: State) {
    && fetch(PageUrl(s, 1, base.minPrice)).Some?
    && st.numListings.Some?
    && ExtractListingCount(fetch(PageUrl(s, 1, base.minPrice)).value.countText) == Success(Listings(st.numListings.value))
    && |st.dataList| > |base.dataList|
    && ListedOn(st.dataList[|base.dataList|]).Some?
    && ListedOn(st.dataList[|base.dataList|]).value > 0
  }

  /** `math.ceil(num_listings / num_listings_per_page)` for a planned window. */
  function PlannedPages(s: Search, fetch: Url -> Option<Response>, base: State, st: State): nat
    requires Planned(s, fetch, base, st)
  {
    CeilDiv(st.numListings.value, ListedOn(st.dataList[|base.dataList|]).value)
  }

  lemma OpenWindowPlan(s: Search, fetch: Url -> Option<Response>, st: State)
    ensures var w := OpenWindow(s, fetch, st);
            && (w.stop.None? ==>
                  && Planned(s, fetch, st, w.state)
                  && (w.state.running <==> st.running && PlannedPages(s, fetch, st, w.state) >= MaxPages)
                  && w.state.targetPages == (if PlannedPages(s, fetch, st, w.state) < MaxPages
                                             then PlannedPages(s, fetch, st, w.state) else st.targetPages))
            && (w.stop.Some? ==> w.state.running == st.running && w.state.targetPages == st.targetPages)
  {
    var w := OpenWindow(s, fetch, st);
    if w.stop.None? {
      var resp := fetch(PageUrl(s, 1, st.minPrice)).value;
      var d := PageData(resp).value;
      var n := ExtractListingCount(resp.countText).value.n;
      var perPage := ListedOn(d).value;
      assert w.state == st.(requested := st.requested + [PageUrl(s, 1, st.minPrice)],
                            dataList := st.dataList + [d], numListings := Some(n),
                            running := w.state.running, targetPages := w.state.targetPages);
      assert w.state.dataList[|st.dataList|] == d;
      assert Planned(s, fetch, st, w.state);
      assert PlannedPages(s, fetch, st, w.state) == CeilDiv(n, perPage);
    }
  }

  /** `Planned` survives appending to the state's lists. */
  lemma PlannedKept(s: Search, fetch: Url -> Option<Response>, base: State, st: State, st': State)
    requires Planned(s, fetch, base, st)
    requires st.dataList <= st'.dataList && st'.numListings == st.numListings
    ensures Planned(s, fetch, base, st') && PlannedPages(s, fetch, base, st') == PlannedPages(s, fetch, base, st)
  {
    assert st'.dataList[|base.dataList|] == st.dataList[|base.dataList|];
  }

  /**
   * The flag: a window leaves `run_dynamic_scraper` set, with 20 pages per window, unless
   * its first page says fewer than 20 pages remain, and then `target_pages` is that count.
   */
  lemma WindowPlan(s: Search, fetch: Url -> Option<Response>, st: State)
    requires st.running
    ensures var w := WindowStep(s, fetch, st);
            && (w.state.running ==> w.state.targetPages == st.targetPages)
            && ((!w.state.running || w.stop.None? || w.stop.value.NoNewFloor?) ==>
                  && Planned(s, fetch, st, w.state)
                  && (w.state.running <==> PlannedPages(s, fetch, st, w.state) >= MaxPages)
                  && (!w.state.running ==> w.state.targetPages == PlannedPages(s, fetch, st, w.state)))
  {
    var w1 := OpenWindow(s, fetch, st);
    OpenWindowPlan(s, fetch, st);
    if w1.stop.None? {
      var w2 := RemainingPages(s, fetch, w1.state, 2);
      RemainingPagesExtend(s, fetch, w1.state, 2);
      PlannedKept(s, fetch, st, w1.state, w2.state);
      if w2.stop.None? {
        OpenWindowShape(s, fetch, st);
        RemainingPagesKeep(s, fetch, w1.state, 2);
        CloseWindowFloor(w2.state);
        assert WindowStep(s, fetch, st) == CloseWindow(w2.state);
        PlannedKept(s, fetch, st, w2.state, CloseWindow(w2.state).state);
      }
    }
  }

  /** What decides a window besides the oracle: its floor, its page target and its flag. */
  predicate SameWindowInputs(a: State, b: State) {
    && a.minPrice == b.minPrice
    && a.targetPages == b.targetPages
    && a.running == b.running
  }

  /** The payload most recently kept. */
  predicate SameLast(a: State, b: State) {
    a.dataList != [] && b.dataList != [] && a.dataList[|a.dataList| - 1] == b.dataList[|b.dataList| - 1]
  }

  lemma OpenWindowSees(s: Search, fetch: Url -> Option<Response>, a: State, b: State)
    requires SameWindowInputs(a, b)
    ensures var wa, wb := OpenWindow(s, fetch, a), OpenWindow(s, fetch, b);
            && wa.stop == wb.stop
            && SameWindowInputs(wa.state, wb.state)
            && (wa.stop.None? ==> SameLast(wa.state, wb.state))
  {
    var url := PageUrl(s, 1, a.minPrice);
    var a1, b1 := a.(requested := a.requested + [url]), b.(requested := b.requested + [url]);
    var resp := fetch(url);
    if resp.None? {
      assert OpenWindow(s, fetch, a) == Window(a1, Some(FetchGaveUp));
      assert OpenWindow(s, fetch, b) == Window(b1, Some(FetchGaveUp));
    } else if PageData(resp.value).None? {
      assert OpenWindow(s, fetch, a) == Window(a1, Some(NoPageData));
      assert OpenWindow(s, fetch, b) == Window(b1, Some(NoPageData));
    } else {
      var d := PageData(resp.value).value;
      var a2, b2 := a1.(dataList := a1.dataList + [d]), b1.(dataList := b1.dataList + [d]);
      var count := ExtractListingCount(resp.value.countText);
      if count.Failure? {
        assert OpenWindow(s, fetch, a) == Window(a2, Some(NoPageCount));
        assert OpenWindow(s, fetch, b) == Window(b2, Some(NoPageCount));
      } else if count.value.NoCount? {
        assert OpenWindow(s, fetch, a) == Window(a2.(numListings := None), Some(NoPageCount));
        assert OpenWindow(s, fetch, b) == Window(b2.(numListings := None), Some(NoPageCount));
      } else {
        var n := count.value.n;
        var a3, b3 := a2.(numListings := Some(n)), b2.(numListings := Some(n));
        var perPage := ListedOn(d);
        if perPage.None? || perPage.value == 0 {
          assert OpenWindow(s, fetch, a) == Window(a3, Some(NoPageCount));
          assert OpenWindow(s, fetch, b) == Window(b3, Some(NoPageCount));
        } else if CeilDiv(n, perPage.value) < MaxPages {
          var pages := CeilDiv(n, perPage.value);
          assert OpenWindow(s, fetch, a) == Window(a3.(running := false, targetPages := pages), None);
          assert OpenWindow(s, fetch, b) == Window(b3.(running := false, targetPages := pages), None);
        } else {
          assert OpenWindow(s, fetch, a) == Window(a3, None);
          assert OpenWindow(s, fetch, b) == Window(b3, None);
        }
      }
    }
  }

  lemma {:induction false} RemainingPagesSee(s: Search, fetch: Url -> Option<Response>, a: State, b: State, pg: nat)
    requires SameWindowInputs(a, b) && SameLast(a, b)
    ensures var wa, wb := RemainingPages(s, fetch, a, pg), RemainingPages(s, fetch, b, pg);
            && wa.stop == wb.stop
            && SameWindowInputs(wa.state, wb.state)
            && (wa.stop.None? ==> SameLast(wa.state, wb.state))
    decreases a.targetPages + 1 - pg, 1
  {
    if pg > a.targetPages {
      assert RemainingPages(s, fetch, a, pg) == Window(a, None);
      assert RemainingPages(s, fetch, b, pg) == Window(b, None);
    } else if PageRead(s, fetch, pg, a.minPrice).None? {
      SeeBreak(s, fetch, a, b, pg);
    } else {
      SeeRead(s, fetch, a, b, pg);
    }
  }

  /** `RemainingPagesSee` when page `pg` gives nothing to keep. */
  lemma SeeBreak(s: Search, fetch: Url -> Option<Response>, a: State, b: State, pg: nat)
    requires SameWindowInputs(a, b) && pg <= a.targetPages && PageRead(s, fetch, pg, a.minPrice).None?
    ensures var wa, wb := RemainingPages(s, fetch, a, pg), RemainingPages(s, fetch, b, pg);
            wa.stop == wb.stop && wa.stop.Some? && SameWindowInputs(wa.state, wb.state)
  {
    var url := PageUrl(s, pg, a.minPrice);
    var stop := if fetch(url).None? then FetchGaveUp else NoPageData;
    assert RemainingPages(s, fetch, a, pg) == Window(a.(requested := a.requested + [url]), Some(stop));
    assert RemainingPages(s, fetch, b, pg) == Window(b.(requested := b.requested + [url]), Some(stop));
  }

  /** `RemainingPagesSee` when page `pg` is read and kept. */
  lemma {:induction false} SeeRead(s: Search, fetch: Url -> Option<Response>, a: State, b: State, pg: nat)
    requires SameWindowInputs(a, b) && pg <= a.targetPages && PageRead(s, fetch, pg, a.minPrice).Some?
    ensures var wa, wb := RemainingPages(s, fetch, a, pg), RemainingPages(s, fetch, b, pg);
            && wa.stop == wb.stop
            && SameWindowInputs(wa.state, wb.state)
            && (wa.stop.None? ==> SameLast(wa.state, wb.state))
    decreases a.targetPages + 1 - pg, 0
  {
    var url := PageUrl(s, pg, a.minPrice);
    var d := PageRead(s, fetch, pg, a.minPrice).value;
    var a2 := a.(requested := a.requested + [url], dataList := a.dataList + [d], pauses := a.pauses + [s.pause]);
    var b2 := b.(requested := b.requested + [url], dataList := b.dataList + [d], pauses := b.pauses + [s.pause]);
    assert RemainingPages(s, fetch, a, pg) == RemainingPages(s, fetch, a2, pg + 1);
    assert RemainingPages(s, fetch, b, pg) == RemainingPages(s, fetch, b2, pg + 1);
    RemainingPagesSee(s, fetch, a2, b2, pg + 1);
  }

  lemma CloseWindowSees(a: State, b: State)
    requires SameWindowInputs(a, b) && SameLast(a, b)
    requires Max(a.pastMinimums + [a.minPrice]) == Max(b.pastMinimums + [b.minPrice])
    ensures var wa, wb := CloseWindow(a), CloseWindow(b);
            wa.stop == wb.stop && SameWindowInputs(wa.state, wb.state)
  {
    var pa, pb := a.pastMinimums + [a.minPrice], b.pastMinimums + [b.minPrice];
    var floor := NextFloor(a.dataList[|a.dataList| - 1], pa);
    NextFloorSeesHighestFloor(a.dataList[|a.dataList| - 1], pa, pb);
    assert NextFloor(b.dataList[|b.dataList| - 1], pb) == floor;
    if floor.Failure? {
      assert CloseWindow(a) == Window(a.(pastMinimums := pa), Some(NoNewFloor(floor.error)));
      assert CloseWindow(b) == Window(b.(pastMinimums := pb), Some(NoNewFloor(floor.error)));
    } else {
      assert CloseWindow(a) == Window(a.(pastMinimums := pa, minPrice := floor.value), None);
      assert CloseWindow(b) == Window(b.(pastMinimums := pb, minPrice := floor.value), None);
    }
  }

  /**
   * The list of past floors matters to a window only through its maximum: two states
   * that agree on floor, page target, flag and that maximum run the same window.
   */
  lemma WindowSeesHighestFloor(s: Search, fetch: Url -> Option<Response>, a: State, b: State)
    requires SameWindowInputs(a, b)
    requires Max(a.pastMinimums + [a.minPrice]) == Max(b.pastMinimums + [b.minPrice])
    ensures var wa, wb := WindowStep(s, fetch, a), WindowStep(s, fetch, b);
            wa.stop == wb.stop && SameWindowInputs(wa.state, wb.state)
  {
    var wa1, wb1 := OpenWindow(s, fetch, a), OpenWindow(s, fetch, b);
    OpenWindowSees(s, fetch, a, b);
    if wa1.stop.None? {
      var wa2, wb2 := RemainingPages(s, fetch, wa1.state, 2), RemainingPages(s, fetch, wb1.state, 2);
      RemainingPagesSee(s, fetch, wa1.state, wb1.state, 2);
      if wa2.stop.None? {
        OpenWindowShape(s, fetch, a);
        OpenWindowShape(s, fetch, b);
        RemainingPagesExtend(s, fetch, wa1.state, 2);
        RemainingPagesExtend(s, fetch, wb1.state, 2);
        assert wa2.state.pastMinimums == a.pastMinimums && wb2.state.pastMinimums == b.pastMinimums;
        CloseWindowSees(wa2.state, wb2.state);
        assert WindowStep(s, fetch, a) == CloseWindow(wa2.state);
        assert WindowStep(s, fetch, b) == CloseWindow(wb2.state);
      }
    }
  }

  /** A full window that stays running and ends at the floor it started from. */
  predicate Stuck(s: Search, fetch: Url -> Option<Response>, st: State) {
    var w := WindowStep(s, fetch, st);
    w.stop.None? && w.state.running && w.state.minPrice == st.minPrice
  }

  /** The next window of a stuck one is stuck as well. */
  lemma StuckAgain(s: Search, fetch: Url -> Option<Response>, st: State)
    requires st.running && Stuck(s, fetch, st)
    ensures var next := WindowStep(s, fetch, st).state;
            next.running && Stuck(s, fetch, next)
  {
    var w := WindowStep(s, fetch, st);
    assert w.state.targetPages == st.targetPages by { WindowPlan(s, fetch, st); }
    assert w.state.pastMinimums == st.pastMinimums + [st.minPrice] by { CompletedWindow(s, fetch, st); }
    assert Max(w.state.pastMinimums + [w.state.minPrice]) == Max(st.pastMinimums + [st.minPrice]) by {
      MaxRepeatLast(st.pastMinimums, st.minPrice);
      assert w.state.pastMinimums + [w.state.minPrice] == st.pastMinimums + [st.minPrice, st.minPrice];
    }
    WindowSeesHighestFloor(s, fetch, st, w.state);
  }

  /** A property of running states that every window keeps, without breaking out, keeps the loop running. */
  lemma {:induction false} RunStaysRunning(s: Search, fetch: Url -> Option<Response>, p: State -> bool, st: State, fuel: nat)
    requires st.running && p(st)
    requires forall x: State {:trigger p(x)} :: x.running && p(x) ==>
               var w := WindowStep(s, fetch, x);
               w.stop.None? && w.state.running && p(w.state)
    ensures Run(s, fetch, st, fuel).running
    decreases fuel
  {
    if fuel > 0 {
      var w := WindowStep(s, fetch, st);
      var left := if w.stop.Some? then 0 else fuel - 1;
      RunStep(s, fetch, st, fuel);
      RunStaysRunning(s, fetch, p, w.state, left);
    } else {
      assert Run(s, fetch, st, fuel) == st;
    }
  }

  /**
   * A full window that finds the floor it started from does so again and again: the
   * loop never clears its flag and never breaks out, and uses up any bound on windows.
   * This rests on `fetch` being a function: a URL requested again gets the same answer.
   * A live site whose answers change between requests need not repeat the window.
   */
  lemma RepeatedFloorNeverEnds(s: Search, fetch: Url -> Option<Response>, st: State, fuel: nat)
    requires st.running && Stuck(s, fetch, st)
    ensures Run(s, fetch, st, fuel).running
  {
    var p := (x: State) => Stuck(s, fetch, x);
    forall x: State | x.running && p(x)
      ensures var w := WindowStep(s, fetch, x); w.stop.None? && w.state.running && p(w.state)
    {
      StuckAgain(s, fetch, x);
    }
    RunStaysRunning(s, fetch, p, st, fuel);
  }
}
