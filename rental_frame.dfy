/**
 * The per-listing classification of `make_frame_rentals`: every listing of every page
 * becomes one table row, "regular" when it carries an `area`, "nested" (a building
 * whose units are fetched later) otherwise. A listing missing any field it needs is
 * dropped silently; a page without the list-results path raises.
 */
module RentalFrame {
  import opened Wrappers
  import opened JsonValue

  datatype ListingKind = Regular | Nested

  /** One row of the rentals table; beds, baths, area and price are None for a nested listing. */
  datatype Row = Row(
    kind: ListingKind,
    description: Json, detailUrl: Json, latitude: Json, longitude: Json,
    address: Json, street: Json, city: Json, zipcode: Json,
    beds: Option<Json>, baths: Option<Json>, area: Option<Json>, price: Option<Json>)

  /** What `for item in x` visits: list items, dict keys, string characters; None if not iterable. */
  function Iterate(j: Json): (r: Option<seq<Json>>)
    ensures j.JArr? ==> r == Some(j.items)
    ensures r.Some? <==> j.JArr? || j.JObj? || j.JStr?
  {
    match j
    case JArr(items) => Some(items)
    case JObj(members) => Some(seq(|members|, k requires 0 <= k < |members| => JStr(members[k].0)))
    case JStr(s) => Some(seq(|s|, k requires 0 <= k < |s| => JStr([s[k]])))
    case _ => None
  }

  /** The fields every row needs, read inside the `try` at lines 20-67; None when one is missing. */
  function CommonFields(item: Json, kind: ListingKind, beds: Option<Json>, baths: Option<Json>,
                        area: Option<Json>, price: Option<Json>): Option<Row>
  {
    match (Get(item, "statusText"), Get(item, "detailUrl"), Get(item, "latLong"))
    case (Some(status), Some(url), Some(latLong)) =>
      (match (Get(latLong, "latitude"), Get(latLong, "longitude"))
       case (Some(lat), Some(lng)) =>
         (match (Get(item, "address"), Get(item, "addressStreet"), Get(item, "addressCity"), Get(item, "addressZipcode"))
          case (Some(address), Some(street), Some(city), Some(zipcode)) =>
            Some(Row(kind, status, url, lat, lng, address, street, city, zipcode, beds, baths, area, price))
          case _ => None)
       case _ => None)
    case _ => None
  }

  /** The eight fields every row reads at lines 38-45, all present. */
  predicate HasCommonFields(item: Json) {
    && Get(item, "statusText").Some? && Get(item, "detailUrl").Some?
    && Get(item, "latLong").Some?
    && Get(Get(item, "latLong").value, "latitude").Some?
    && Get(Get(item, "latLong").value, "longitude").Some?
    && Get(item, "address").Some? && Get(item, "addressStreet").Some?
    && Get(item, "addressCity").Some? && Get(item, "addressZipcode").Some?
  }

  /**
   * One listing, or None when it is skipped by the `except: pass`: a row is produced
   * exactly when the listing is a dict with the common fields and, if it has an `area`,
   * also beds, baths and an unformatted price.
   */
  function ClassifyListing(item: Json): (r: Option<Row>)
    ensures r.Some? <==>
              && item.JObj? && HasCommonFields(item)
              && (HasKey(item.members, "area") ==>
                    Get(item, "beds").Some? && Get(item, "baths").Some? && Get(item, "unformattedPrice").Some?)
    ensures r.Some? ==> item.JObj? && (r.value.kind == Regular <==> HasKey(item.members, "area"))
  {
    if !item.JObj? then None
    else if HasKey(item.members, "area") then
      match (Get(item, "beds"), Get(item, "baths"), Get(item, "area"), Get(item, "unformattedPrice"))
      case (Some(beds), Some(baths), Some(area), Some(price)) =>
        CommonFields(item, Regular, Some(beds), Some(baths), Some(area), Some(price))
      case _ => None
    else CommonFields(item, Nested, None, None, None, None)
  }

  /**
   * A listing classifies exactly when it is a dict with the common fields and, when it
   * has an `area`, beds, baths and an unformatted price; it is regular exactly when it
   * has an `area` key; every row carries the listing's own common fields; a regular
   * row carries its beds, baths, area and unformatted price, and a nested row none.
   */
  lemma ClassifiedByArea(item: Json)
    ensures var r := ClassifyListing(item);
            && (r.Some? <==>
                  && item.JObj? && HasCommonFields(item)
                  && (HasKey(item.members, "area") ==>
                        Get(item, "beds").Some? && Get(item, "baths").Some? && Get(item, "unformattedPrice").Some?))
            && (r.Some? ==> item.JObj?)
            && (r.Some? ==>
                  && r.value.description == Get(item, "statusText").value
                  && r.value.detailUrl == Get(item, "detailUrl").value
                  && r.value.latitude == Get(Get(item, "latLong").value, "latitude").value
                  && r.value.longitude == Get(Get(item, "latLong").value, "longitude").value
                  && r.value.address == Get(item, "address").value
                  && r.value.street == Get(item, "addressStreet").value
                  && r.value.city == Get(item, "addressCity").value
                  && r.value.zipcode == Get(item, "addressZipcode").value)
            && (r.Some? ==> (r.value.kind == Regular <==> HasKey(item.members, "area")))
            && (r.Some? && r.value.kind == Nested ==>
                  r.value.beds.None? && r.value.baths.None? && r.value.area.None? && r.value.price.None?)
            && (r.Some? && r.value.kind == Regular ==>
                  && r.value.beds == Get(item, "beds") && r.value.baths == Get(item, "baths")
                  && r.value.area == Get(item, "area") && r.value.price == Get(item, "unformattedPrice")
                  && r.value.beds.Some? && r.value.baths.Some? && r.value.area.Some? && r.value.price.Some?)
  {
  }

  /** The rows of a page's listings, in order, skipping the ones that fail. */
  function ListingRows(items: seq<Json>): (rows: seq<Row>)
    ensures |rows| <= |items|
  {
    if items == [] then []
    else
      var last := ClassifyListing(items[|items| - 1]);
      ListingRows(items[..|items| - 1]) + (if last.Some? then [last.value] else [])
  }

  /** The rows of one page, or None when reaching its listings raises. */
  function PageRows(page: Json): Option<seq<Row>> {
    match ListResults(page)
    case None => None
    case Some(listResults) =>
      (match Iterate(listResults)
       case None => None
       case Some(items) => Some(ListingRows(items)))
  }

  /** The rows of all pages, or None when any page raises. */
  function AllRows(pages: seq<Json>): Option<seq<Row>> {
    if pages == [] then Some([])
    else
      var before := AllRows(pages[..|pages| - 1]);
      var rows := PageRows(pages[|pages| - 1]);
      if before.Some? && rows.Some? then Some(before.value + rows.value) else None
  }

  /** `make_frame_rentals(frame, data_list)`: the rows appended to `frame`, or None where it raises. */
  method MakeFrameRentals(frame: seq<Row>, dataList: seq<Json>) returns (r: Option<seq<Row>>)
    ensures AllRows(dataList).None? ==> r.None?
    ensures AllRows(dataList).Some? ==> r == Some(frame + AllRows(dataList).value)
  {
    var rows := frame;
    var i := 0;
    ghost var done: seq<Row> := [];
    while i < |dataList|
      invariant i <= |dataList|
      invariant AllRows(dataList[..i]) == Some(done)
      invariant rows == frame + done
    {
      var page := dataList[i];
      var next := AppendPage(rows, page);
      if next.None? {
        AllRowsFailFrom(dataList, i);
        return None;
      }
      ghost var added := PageRows(page).value;
      AllRowsNext(dataList, i);
      SeqAssoc(frame, done, added);
      done := done + added;
      rows := next.value;
      i := i + 1;
    }
    assert dataList[..i] == dataList;
    r := Some(rows);
  }

  lemma SeqAssoc(a: seq<Row>, b: seq<Row>, c: seq<Row>)
    ensures (a + b) + c == a + (b + c)
  {
  }

  /** One pass of the outer loop: the page's rows appended, or None where reaching them raises. */
  method AppendPage(frame: seq<Row>, page: Json) returns (r: Option<seq<Row>>)
    ensures PageRows(page).None? ==> r.None?
    ensures PageRows(page).Some? ==> r == Some(frame + PageRows(page).value)
  {
    var listResults := ListResults(page);
    if listResults.None? {
      return None;
    }
    var items := Iterate(listResults.value);
    if items.None? {
      return None;
    }
    var rows := AppendListingRows(frame, items.value);
    r := Some(rows);
  }

  /** The inner loop: one row appended per listing that classifies. */
  method AppendListingRows(frame: seq<Row>, items: seq<Json>) returns (rows: seq<Row>)
    ensures rows == frame + ListingRows(items)
  {
    rows := frame;
    var j := 0;
    while j < |items|
      invariant j <= |items|
      invariant rows == frame + ListingRows(items[..j])
    {
      ListingRowsNext(items, j);
      rows := AppendListing(rows, items[j]);
      j := j + 1;
    }
    assert items[..j] == items;
  }

  /** One pass of the inner loop: the listing's row appended if it classifies, else nothing. */
  method AppendListing(rows: seq<Row>, item: Json) returns (next: seq<Row>)
    ensures var row := ClassifyListing(item);
            next == rows + (if row.Some? then [row.value] else [])
  {
    var row := ClassifyListing(item);
    next := rows;
    if row.Some? {
      next := next + [row.value];
    }
  }

  /** One more listing adds its row, if it classifies, after the rows before it. */
  lemma ListingRowsNext(items: seq<Json>, j: nat)
    requires j < |items|
    ensures var row := ClassifyListing(items[j]);
            ListingRows(items[..j + 1]) == ListingRows(items[..j]) + (if row.Some? then [row.value] else [])
  {
    assert items[..j + 1][..j] == items[..j];
  }

  /** Once one page raises, the whole table does. */
  lemma {:induction false} AllRowsFailFrom(pages: seq<Json>, i: nat)
    requires i < |pages| && PageRows(pages[i]).None?
    ensures AllRows(pages).None?
    decreases |pages|
  {
    if i < |pages| - 1 {
      AllRowsFailFrom(pages[..|pages| - 1], i);
    }
  }

  /** The rows of one more page follow the rows of the pages before it. */
  lemma AllRowsNext(pages: seq<Json>, i: nat)
    requires i < |pages| && AllRows(pages[..i]).Some? && PageRows(pages[i]).Some?
    ensures AllRows(pages[..i + 1]) == Some(AllRows(pages[..i]).value + PageRows(pages[i]).value)
  {
    assert pages[..i + 1][..i] == pages[..i];
  }

  /** A listing that fails is dropped without disturbing the rows around it. */
  lemma {:induction false} SkippedListingDropsOut(items: seq<Json>, k: nat)
    requires k < |items| && ClassifyListing(items[k]).None?
    ensures ListingRows(items) == ListingRows(items[..k]) + ListingRows(items[k + 1..])
  {
    assert items == items[..k + 1] + items[k + 1..];
    ListingRowsAppend(items[..k + 1], items[k + 1..]);
    ListingRowsNext(items, k);
  }

  lemma {:induction false} ListingRowsAppend(a: seq<Json>, b: seq<Json>)
    ensures ListingRows(a + b) == ListingRows(a) + ListingRows(b)
    decreases |b|
  {
    if b == [] {
      assert a + b == a;
    } else {
      var b' := b[..|b| - 1];
      assert (a + b)[..|a + b| - 1] == a + b';
      assert (a + b)[|a + b| - 1] == b[|b| - 1];
      ListingRowsAppend(a, b');
    }
  }
}
