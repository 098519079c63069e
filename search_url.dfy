/**
 * The search URL builder (`zillow_url_constructor`): a location, a category, a page
 * number and a price floor become a path and a `searchQueryState` value.
 * The query state is kept as the structured value the source builds as a dict;
 * its rendering with `str`, the True/False replacement and percent-encoding is not modelled.
 */
module SearchUrl {
  import opened Wrappers
  import opened JsonValue
  import opened Digits

  datatype Category = Rental | Sale

  /** The `TypeError` raised for a category other than rent, rental or sale. */
  datatype UrlError = InvalidCategory

  /** A URL: the path up to `?searchQueryState=` and the query state placed after it. */
  datatype Url = Url(path: string, searchQueryState: Json)

  const Site: string := "https://www.zillow.com/"

  /** "rent" is taken as "rental"; anything outside {rental, sale} is refused. */
  function NormalizeCategory(category: string): (r: Result<Category, UrlError>)
    ensures r == Success(Rental) <==> category == "rent" || category == "rental"
    ensures r == Success(Sale) <==> category == "sale"
    ensures r.Failure? <==> category != "rent" && category != "rental" && category != "sale"
  {
    if category == "rent" || category == "rental" then Success(Rental)
    else if category == "sale" then Success(Sale)
    else Failure(InvalidCategory)
  }

  function MinFilter(minPrice: nat): Json {
    JObj([("min", JNum(minPrice))])
  }

  function Flag(value: bool): Json {
    JObj([("value", JBool(value))])
  }

  const SortByPriceAscending: Json := JObj([("value", JStr("pricea"))])

  /** The rental-only facets: for rent, and none of the for-sale listing kinds; then the sort order. */
  const RentalFacets: seq<(string, Json)> :=
    [("fr", Flag(true)), ("fsba", Flag(false)), ("fsbo", Flag(false)),
     ("nc", Flag(false)), ("cmsn", Flag(false)), ("auc", Flag(false)),
     ("fore", Flag(false)), ("sort", SortByPriceAscending)]

  /** `{}` on page 1, `{"currentPage": pg}` on any other page. */
  function Pagination(pg: nat): Json {
    if pg == 1 then JObj([]) else JObj([("currentPage", JNum(pg))])
  }

  function FilterState(category: Category, minPrice: nat): Json {
    match category
    case Rental =>
      JObj([("price", MinFilter(minPrice)), ("mp", MinFilter(minPrice))] + RentalFacets)
    case Sale =>
      JObj([("price", MinFilter(minPrice)), ("sort", SortByPriceAscending),
            ("mp", MinFilter(minPrice))])
  }

  function QueryState(category: Category, pg: nat, minPrice: nat): Json {
    JObj([("pagination", Pagination(pg)), ("isMapVisible", JBool(true)),
          ("filterState", FilterState(category, minPrice)),
          ("isListVisible", JBool(true)), ("mapZoom", JNum(11))])
  }

  function CategorySegment(category: Category): string {
    if category == Rental then "rentals/" else ""
  }

  /** The URL for a category already validated. */
  function BuildUrl(location: string, category: Category, pg: nat, minPrice: nat): Url {
    Url(Site + location + "/" + CategorySegment(category) + PageSegment(pg), QueryState(category, pg, minPrice))
  }

  /** The page segment of a path: nothing on page 1, `<pg>_p/` on any other page. */
  function PageSegment(pg: nat): string {
    if pg == 1 then "" else NatToString(pg) + "_p/"
  }

  /**
   * The path: the location's page, then `rentals/` for a rental search and no category
   * segment for a sale search, then `<pg>_p/` after page 1, whose number reads back as `pg`.
   */
  lemma UrlPath(location: string, category: Category, pg: nat, minPrice: nat)
    ensures var path := BuildUrl(location, category, pg, minPrice).path;
            var base := Site + location + "/";
            && (category == Rental && pg == 1 ==> path == base + "rentals/")
            && (category == Sale && pg == 1 ==> path == base)
            && (category == Rental && pg != 1 ==> path == base + "rentals/" + NatToString(pg) + "_p/")
            && (category == Sale && pg != 1 ==> path == base + NatToString(pg) + "_p/")
            && (pg != 1 ==>
                  var n := |NatToString(pg)|;
                  && |base| + n + 3 <= |path|
                  && path[|path| - 3..] == "_p/"
                  && ParseNat(path[|path| - 3 - n..|path| - 3]) == Some(pg))
  {
    var base := Site + location + "/";
    assert BuildUrl(location, category, pg, minPrice).path == base + CategorySegment(category) + PageSegment(pg);
    PathShape(base, category, pg);
  }

  /** `UrlPath` for any location page `base`. */
  lemma PathShape(base: string, category: Category, pg: nat)
    ensures var path := base + CategorySegment(category) + PageSegment(pg);
            && (category == Rental && pg == 1 ==> path == base + "rentals/")
            && (category == Sale && pg == 1 ==> path == base)
            && (category == Rental && pg != 1 ==> path == base + "rentals/" + NatToString(pg) + "_p/")
            && (category == Sale && pg != 1 ==> path == base + NatToString(pg) + "_p/")
            && (pg != 1 ==>
                  var n := |NatToString(pg)|;
                  && |base| + n + 3 <= |path|
                  && path[|path| - 3..] == "_p/"
                  && ParseNat(path[|path| - 3 - n..|path| - 3]) == Some(pg))
  {
    var head := base + CategorySegment(category);
    if category == Rental {
      assert head == base + "rentals/";
    } else {
      assert head == base;
    }
    if pg == 1 {
      assert head + PageSegment(pg) == head;
    } else {
      PageSegmentReadBack(head, pg);
    }
  }

  /** After any head, the segment `<pg>_p/` ends the path and its number reads back as `pg`. */
  lemma PageSegmentReadBack(head: string, pg: nat)
    requires pg != 1
    ensures var path := head + PageSegment(pg);
            var n := |NatToString(pg)|;
            && path == head + NatToString(pg) + "_p/"
            && |head| + n + 3 <= |path|
            && path[|path| - 3..] == "_p/"
            && ParseNat(path[|path| - 3 - n..|path| - 3]) == Some(pg)
  {
    var digits := NatToString(pg);
    var path := head + PageSegment(pg);
    assert path == head + digits + "_p/";
    assert path[|path| - 3..] == "_p/";
    assert path[|path| - 3 - |digits|..|path| - 3] == digits;
    NatToStringRoundTrip(pg);
  }

  /** A sale path never holds the `rentals/` segment after the location's page. */
  lemma SaleHasNoRentals(location: string, pg: nat, minPrice: nat)
    ensures !(Site + location + "/rentals/" <= BuildUrl(location, Sale, pg, minPrice).path)
  {
    var path := BuildUrl(location, Sale, pg, minPrice).path;
    var base := Site + location + "/";
    UrlPath(location, Sale, pg, minPrice);
    if pg != 1 {
      var digits := NatToString(pg);
      assert path[|base|] == digits[0];
      assert IsDigit(digits[0]);
      assert (base + "rentals/")[|base|] == 'r';
    }
  }

  /** A rental path holds the `rentals/` segment after the location's page. */
  lemma RentalHasRentals(location: string, pg: nat, minPrice: nat)
    ensures Site + location + "/rentals/" <= BuildUrl(location, Rental, pg, minPrice).path
  {
  }

  /**
   * `zillow_url_constructor(location, category, pg_num, min_price)`: refused exactly for a
   * category other than rent, rental or sale; otherwise a URL whose query state names the
   * page and the floor, and whose path holds `rentals/` exactly for a rental search.
   */
  function ZillowUrl(location: string, category: string, pg: nat, minPrice: nat): (r: Result<Url, UrlError>)
    ensures r.Failure? <==> category != "sale" && category != "rent" && category != "rental"
    ensures r.Success? ==>
              DecodeState(r.value.searchQueryState)
                == Some((if category == "sale" then Sale else Rental, pg, minPrice))
    ensures r.Success? ==> (Site + location + "/rentals/" <= r.value.path <==> category != "sale")
  {
    match NormalizeCategory(category)
    case Failure(e) => Failure(e)
    case Success(c) =>
      DecodeBuiltState(location, c, pg, minPrice);
      if c == Sale then
        SaleHasNoRentals(location, pg, minPrice);
        Success(BuildUrl(location, c, pg, minPrice))
      else
        RentalHasRentals(location, pg, minPrice);
        Success(BuildUrl(location, c, pg, minPrice))
  }

  /** `"rent"` and `"rental"` name the same search. */
  lemma RentIsRental(location: string, pg: nat, minPrice: nat)
    ensures ZillowUrl(location, "rent", pg, minPrice) == ZillowUrl(location, "rental", pg, minPrice)
    ensures ZillowUrl(location, "rent", pg, minPrice).Success?
  {
  }

  /** Reads the page number back from the pagination field. */
  function PageOf(pagination: Json): Option<nat> {
    if pagination == JObj([]) then Some(1)
    else match Get(pagination, "currentPage")
      case Some(JNum(n)) => Some(n)
      case _ => None
  }

  /** Reads the price floor back: both `price.min` and `mp.min`, which must agree. */
  function MinPriceOf(filter: Json): Option<nat> {
    match (Get(filter, "price"), Get(filter, "mp"))
    case (Some(price), Some(mp)) =>
      (match (Get(price, "min"), Get(mp, "min"))
       case (Some(JNum(a)), Some(JNum(b))) => if a == b then Some(a) else None
       case _ => None)
    case _ => None
  }

  /** A query state is a rental one when its filters carry the for-rent facet `fr`. */
  function CategoryOf(filter: Json): Category {
    if Get(filter, "fr").Some? then Rental else Sale
  }

  /** The inverse of `QueryState`: the search a query state describes. */
  function DecodeState(state: Json): Option<(Category, nat, nat)> {
    match (Get(state, "pagination"), Get(state, "filterState"))
    case (Some(pagination), Some(filter)) =>
      (match (PageOf(pagination), MinPriceOf(filter))
       case (Some(pg), Some(minPrice)) => Some((CategoryOf(filter), pg, minPrice))
       case _ => None)
    case _ => None
  }

  lemma MinFilterReadBack(minPrice: nat)
    ensures Get(MinFilter(minPrice), "min") == Some(JNum(minPrice))
  {
    LookupAt(MinFilter(minPrice).members, "min", 0);
  }

  lemma RentalFilterReadBack(minPrice: nat)
    ensures MinPriceOf(FilterState(Rental, minPrice)) == Some(minPrice)
    ensures CategoryOf(FilterState(Rental, minPrice)) == Rental
  {
    var filter := FilterState(Rental, minPrice);
    LookupAt(filter.members, "price", 0);
    LookupAt(filter.members, "mp", 1);
    LookupAt(filter.members, "fr", 2);
    MinFilterReadBack(minPrice);
  }

  lemma SaleFilterReadBack(minPrice: nat)
    ensures MinPriceOf(FilterState(Sale, minPrice)) == Some(minPrice)
    ensures CategoryOf(FilterState(Sale, minPrice)) == Sale
  {
    var filter := FilterState(Sale, minPrice);
    LookupAt(filter.members, "price", 0);
    LookupAt(filter.members, "mp", 2);
    MinFilterReadBack(minPrice);
    assert filter.members[0].0 == "price" && filter.members[1].0 == "sort" && filter.members[2].0 == "mp";
    assert "price" != "fr" && "sort" != "fr" && "mp" != "fr";
  }

  lemma FilterStateReadBack(category: Category, minPrice: nat)
    ensures MinPriceOf(FilterState(category, minPrice)) == Some(minPrice)
    ensures CategoryOf(FilterState(category, minPrice)) == category
  {
    if category == Rental {
      RentalFilterReadBack(minPrice);
    } else {
      SaleFilterReadBack(minPrice);
    }
  }

  /** The page reads back, and only page 1 is sent as the empty `{}`. */
  lemma PaginationReadBack(pg: nat)
    ensures PageOf(Pagination(pg)) == Some(pg)
    ensures Pagination(pg) == JObj([]) <==> pg == 1
  {
    if pg != 1 {
      LookupAt(Pagination(pg).members, "currentPage", 0);
    }
  }

  /** `filter[facet]["value"]`, or None where either subscript fails. */
  function FacetValue(filter: Json, facet: string): Option<Json> {
    match Get(filter, facet)
    case None => None
    case Some(f) => Get(f, "value")
  }

  /**
   * Beyond the page and the floor, every query state sorts by ascending price and shows
   * the map and the list at zoom 11; a rental one asks for rentals and turns off the
   * for-sale listing kinds, and a sale one sets none of those facets.
   */
  lemma QueryStateSettings(category: Category, pg: nat, minPrice: nat)
    ensures var q := QueryState(category, pg, minPrice);
            var filter := FilterState(category, minPrice);
            && Get(q, "filterState") == Some(filter)
            && FacetValue(filter, "sort") == Some(JStr("pricea"))
            && Get(q, "isMapVisible") == Some(JBool(true))
            && Get(q, "isListVisible") == Some(JBool(true))
            && Get(q, "mapZoom") == Some(JNum(11))
            && (category == Rental ==>
                  && FacetValue(filter, "fr") == Some(JBool(true))
                  && FacetValue(filter, "fsba") == Some(JBool(false))
                  && FacetValue(filter, "fsbo") == Some(JBool(false))
                  && FacetValue(filter, "nc") == Some(JBool(false))
                  && FacetValue(filter, "cmsn") == Some(JBool(false))
                  && FacetValue(filter, "auc") == Some(JBool(false))
                  && FacetValue(filter, "fore") == Some(JBool(false)))
            && (category == Sale ==>
                  && Get(filter, "fr").None? && Get(filter, "fsba").None? && Get(filter, "fsbo").None?
                  && Get(filter, "nc").None? && Get(filter, "cmsn").None? && Get(filter, "auc").None?
                  && Get(filter, "fore").None?)
  {
    QueryFlags(category, pg, minPrice);
    if category == Rental {
      RentalSettings(minPrice);
    } else {
      SaleSettings(minPrice);
    }
  }

  lemma QueryFlags(category: Category, pg: nat, minPrice: nat)
    ensures var q := QueryState(category, pg, minPrice);
            && Get(q, "filterState") == Some(FilterState(category, minPrice))
            && Get(q, "isMapVisible") == Some(JBool(true))
            && Get(q, "isListVisible") == Some(JBool(true))
            && Get(q, "mapZoom") == Some(JNum(11))
  {
    assert QueryState(category, pg, minPrice) == JObj(QueryMembers(Pagination(pg), FilterState(category, minPrice)));
    QueryFlagsOf(Pagination(pg), FilterState(category, minPrice));
  }

  /** The members of a query state around its pagination and filter. */
  function QueryMembers(pagination: Json, filter: Json): seq<(string, Json)> {
    [("pagination", pagination), ("isMapVisible", JBool(true)),
     ("filterState", filter), ("isListVisible", JBool(true)), ("mapZoom", JNum(11))]
  }

  lemma QueryFlagsOf(pagination: Json, filter: Json)
    ensures var q := JObj(QueryMembers(pagination, filter));
            && Get(q, "filterState") == Some(filter)
            && Get(q, "isMapVisible") == Some(JBool(true))
            && Get(q, "isListVisible") == Some(JBool(true))
            && Get(q, "mapZoom") == Some(JNum(11))
  {
    QueryMemberAt(pagination, filter, 1);
    QueryMemberAt(pagination, filter, 2);
    QueryMemberAt(pagination, filter, 3);
    QueryMemberAt(pagination, filter, 4);
  }

  /** Each member of a query state is found at its own place: their keys are distinct. */
  lemma QueryMemberAt(pagination: Json, filter: Json, k: nat)
    requires k < 5
    ensures var m := QueryMembers(pagination, filter);
            Lookup(m, m[k].0) == Some(m[k].1)
  {
    var m := QueryMembers(pagination, filter);
    if k == 0 { LookupAt(m, "pagination", 0); }
    else if k == 1 { LookupAt(m, "isMapVisible", 1); }
    else if k == 2 { LookupAt(m, "filterState", 2); }
    else if k == 3 { LookupAt(m, "isListVisible", 3); }
    else { LookupAt(m, "mapZoom", 4); }
  }

  lemma RentalSettings(minPrice: nat)
    ensures var filter := FilterState(Rental, minPrice);
            && FacetValue(filter, "sort") == Some(JStr("pricea"))
            && FacetValue(filter, "fr") == Some(JBool(true))
            && FacetValue(filter, "fsba") == Some(JBool(false))
            && FacetValue(filter, "fsbo") == Some(JBool(false))
            && FacetValue(filter, "nc") == Some(JBool(false))
            && FacetValue(filter, "cmsn") == Some(JBool(false))
            && FacetValue(filter, "auc") == Some(JBool(false))
            && FacetValue(filter, "fore") == Some(JBool(false))
  {
    RentalFacet(minPrice, 0);
    RentalFacet(minPrice, 1);
    RentalFacet(minPrice, 2);
    RentalFacet(minPrice, 3);
    RentalFacet(minPrice, 4);
    RentalFacet(minPrice, 5);
    RentalFacet(minPrice, 6);
    RentalFacet(minPrice, 7);
  }

  /** A rental facet's value read through the filter, past the price floors before it. */
  lemma RentalFacet(minPrice: nat, k: nat)
    requires k < |RentalFacets|
    ensures FacetValue(FilterState(Rental, minPrice), RentalFacets[k].0) == Get(RentalFacets[k].1, "value")
  {
    var head := [("price", MinFilter(minPrice)), ("mp", MinFilter(minPrice))];
    assert FilterState(Rental, minPrice).members == head + RentalFacets;
    LookupSkip(head, RentalFacets, RentalFacets[k].0);
    RentalFacetAt(k);
  }

  /** Each rental facet is found at its own place: their keys are distinct. */
  lemma RentalFacetAt(k: nat)
    requires k < |RentalFacets|
    ensures Lookup(RentalFacets, RentalFacets[k].0) == Some(RentalFacets[k].1)
  {
    if k == 0 { LookupAt(RentalFacets, "fr", 0); }
    else if k == 1 { LookupAt(RentalFacets, "fsba", 1); }
    else if k == 2 { LookupAt(RentalFacets, "fsbo", 2); }
    else if k == 3 { LookupAt(RentalFacets, "nc", 3); }
    else if k == 4 { LookupAt(RentalFacets, "cmsn", 4); }
    else if k == 5 { LookupAt(RentalFacets, "auc", 5); }
    else if k == 6 { LookupAt(RentalFacets, "fore", 6); }
    else { LookupAt(RentalFacets, "sort", 7); }
  }

  lemma SaleSettings(minPrice: nat)
    ensures var filter := FilterState(Sale, minPrice);
            && FacetValue(filter, "sort") == Some(JStr("pricea"))
            && Get(filter, "fr").None? && Get(filter, "fsba").None? && Get(filter, "fsbo").None?
            && Get(filter, "nc").None? && Get(filter, "cmsn").None? && Get(filter, "auc").None?
            && Get(filter, "fore").None?
  {
    var m := FilterState(Sale, minPrice).members;
    assert m[0].0 == "price" && m[1].0 == "sort";
    LookupAt(m, "sort", 1);
    LookupAt(SortByPriceAscending.members, "value", 0);
    SaleFacetsAbsent(minPrice);
  }

  /** A sale filter holds only the price floors and the sort, so no rental facet is found in it. */
  lemma SaleFacetsAbsent(minPrice: nat)
    ensures var filter := FilterState(Sale, minPrice);
            forall key :: key !in {"price", "sort", "mp"} ==> Get(filter, key).None?
  {
    var m := FilterState(Sale, minPrice).members;
    assert |m| == 3 && m[0].0 == "price" && m[1].0 == "sort" && m[2].0 == "mp";
  }

  /** Round trip: the query state names exactly the category, page and floor it was built from. */
  lemma DecodeBuiltState(location: string, category: Category, pg: nat, minPrice: nat)
    ensures DecodeState(BuildUrl(location, category, pg, minPrice).searchQueryState)
         == Some((category, pg, minPrice))
  {
    var state := QueryState(category, pg, minPrice);
    LookupAt(state.members, "pagination", 0);
    LookupAt(state.members, "filterState", 2);
    FilterStateReadBack(category, minPrice);
    PaginationReadBack(pg);
  }

  /** Different searches never share a URL. */
  lemma BuildUrlInjective(location: string, c1: Category, p1: nat, m1: nat, c2: Category, p2: nat, m2: nat)
    requires BuildUrl(location, c1, p1, m1) == BuildUrl(location, c2, p2, m2)
    ensures c1 == c2 && p1 == p2 && m1 == m2
  {
    DecodeBuiltState(location, c1, p1, m1);
    DecodeBuiltState(location, c2, p2, m2);
  }
}
