/**
 * The next price floor (`find_new_minimum`): scan the listing records of the last
 * page of a window from the end backward and take the first usable price.
 * Prices are natural numbers here, where the source converts them with `float`.
 */
module NewMinimum {
  import opened Wrappers
  import opened JsonValue
  import opened Digits

  /**
   * Why no floor came out: `NoUsablePrice` is the IndexError after the scan runs out of
   * records; `Malformed` is any other exception (a malformed grouped record or unit price,
   * a page without list results, `max` of an empty list).
   */
  datatype FloorError = NoUsablePrice | Malformed

  /** What one record contributes: a price, nothing (move back one record), or an exception. */
  datatype RecordPrice = Price(p: nat) | Skip | Fail

  /** The characters removed from a unit price before conversion. */
  const PriceDecorations: set<char> := {'$', ',', '+'}

  /** `float(v)` on a plain record's `unformattedPrice`; None where Python raises. */
  function PlainPrice(v: Json): (r: Option<nat>)
    ensures v.JNum? ==> r == Some(v.n)
    ensures v.JStr? ==> (r.Some? <==> v.s != [] && AllDigits(v.s))
    ensures v.JNull? || v.JArr? || v.JObj? ==> r.None?
  {
    match v
    case JNum(n) => Some(n)
    case JBool(b) => Some(if b then 1 else 0)
    case JStr(s) => ParseNat(s)
    case _ => None
  }

  /** `float(price.replace("$", "").replace(",", "").replace("+", ""))` for a unit's price. */
  function UnitPrice(unit: Json): (r: Option<nat>)
    ensures r.Some? ==> Get(unit, "price").Some? && Get(unit, "price").value.JStr?
    ensures r.Some? <==>
              Get(unit, "price").Some? && Get(unit, "price").value.JStr?
              && Without(Get(unit, "price").value.s, PriceDecorations) != []
              && AllDigits(Without(Get(unit, "price").value.s, PriceDecorations))
  {
    match Get(unit, "price")
    case Some(JStr(s)) => ParseNat(Without(s, PriceDecorations))
    case _ => None
  }

  /** The converted prices of all units, or None if any one of them raises. */
  function UnitPrices(units: seq<Json>): (r: Option<seq<nat>>)
    ensures r.Some? <==> forall i :: 0 <= i < |units| ==> UnitPrice(units[i]).Some?
    ensures r.Some? ==> |r.value| == |units|
                        && forall i :: 0 <= i < |units| ==> r.value[i] == UnitPrice(units[i]).value
  {
    if units == [] then Some([])
    else match (UnitPrice(units[0]), UnitPrices(units[1..]))
      case (Some(p), Some(rest)) => Some([p] + rest)
      case _ => None
  }

  function Max(s: seq<nat>): (m: nat)
    requires s != []
    ensures m in s && forall i :: 0 <= i < |s| ==> s[i] <= m
  {
    if |s| == 1 then s[0] else var m := Max(s[1..]); if s[0] >= m then s[0] else m
  }

  function Min(s: seq<nat>): (m: nat)
    requires s != []
    ensures m in s && forall i :: 0 <= i < |s| ==> m <= s[i]
  {
    if |s| == 1 then s[0] else var m := Min(s[1..]); if s[0] <= m then s[0] else m
  }

  /** The list comprehension at line 270: the prices strictly below `threshold`, in order. */
  function Below(prices: seq<nat>, threshold: nat): (r: seq<nat>)
    ensures forall i :: 0 <= i < |r| ==> r[i] < threshold && r[i] in prices
    ensures forall i :: 0 <= i < |prices| && prices[i] < threshold ==> prices[i] in r
  {
    if prices == [] then []
    else if prices[0] < threshold then [prices[0]] + Below(prices[1..], threshold)
    else Below(prices[1..], threshold)
  }

  /** The price a grouped record with several units gives: the least kept price, if any. */
  function GroupPrice(units: seq<Json>, pastMinimums: seq<nat>): (r: RecordPrice)
    ensures r == Fail <==> UnitPrices(units).None? || pastMinimums == []
    ensures r.Price? ==>
              && r.p in UnitPrices(units).value
              && r.p < Max(pastMinimums)
              && forall q :: q in UnitPrices(units).value && q < Max(pastMinimums) ==> r.p <= q
    ensures r == Skip <==>
              && UnitPrices(units).Some? && pastMinimums != []
              && forall q :: q in UnitPrices(units).value ==> q >= Max(pastMinimums)
  {
    match UnitPrices(units)
    case None => Fail
    case Some(prices) =>
      if pastMinimums == [] then Fail
      else
        var kept := Below(prices, Max(pastMinimums));
        if kept == [] then Skip else Price(Min(kept))
  }

  /**
   * One record, as one iteration of the loop at lines 245-284: a plain record takes its
   * `unformattedPrice`, silently skipped when that fails; a grouped record's failures
   * are not caught.
   */
  function RecordStep(rec: Json, pastMinimums: seq<nat>): (r: RecordPrice)
    ensures !rec.JObj? ==> r == Fail
  {
    if !rec.JObj? then Fail
    else if !HasKey(rec.members, "units") then
      match Lookup(rec.members, "unformattedPrice")
      case None => Skip
      case Some(v) => if PlainPrice(v).Some? then Price(PlainPrice(v).value) else Skip
    else
      var units := Lookup(rec.members, "units").value;
      match PyLen(units)
      case None => Fail
      case Some(n) =>
        if n == 0 then Skip
        else if !units.JArr? then Fail
        else if n == 1 then
          if UnitPrice(units.items[0]).Some? then Price(UnitPrice(units.items[0]).value) else Fail
        else GroupPrice(units.items, pastMinimums)
  }

  /**
   * A plain record (a dict without `units`) never raises: its price is its
   * `unformattedPrice` when that is present and converts, and otherwise it is skipped.
   */
  lemma PlainRecordPrice(rec: Json, pastMinimums: seq<nat>)
    requires rec.JObj? && Lookup(rec.members, "units").None?
    ensures var r := RecordStep(rec, pastMinimums);
            var price := Lookup(rec.members, "unformattedPrice");
            && r != Fail
            && (r.Price? <==> price.Some? && PlainPrice(price.value).Some?)
            && (r.Price? ==> r.p == PlainPrice(price.value).value)
  {
  }

  /** The outcome of scanning records `k-1` down to `0`. */
  datatype Scan = Found(p: nat) | Failed | Exhausted

  /** What each record contributes, in the order of the records. */
  function Steps(records: seq<Json>, pastMinimums: seq<nat>): (r: seq<RecordPrice>)
    ensures |r| == |records|
    ensures forall i :: 0 <= i < |records| ==> r[i] == RecordStep(records[i], pastMinimums)
  {
    seq(|records|, i requires 0 <= i < |records| => RecordStep(records[i], pastMinimums))
  }

  /** The scan over the steps `k-1` down to `0`: the last step that does not skip decides. */
  function ScanSteps(steps: seq<RecordPrice>, k: nat): Scan
    requires k <= |steps|
  {
    if k == 0 then Exhausted
    else match steps[k - 1]
      case Price(p) => Found(p)
      case Fail => Failed
      case Skip => ScanSteps(steps, k - 1)
  }

  /** The specification of the scan over the records themselves. */
  function ScanBack(records: seq<Json>, k: nat, pastMinimums: seq<nat>): Scan
    requires k <= |records|
  {
    ScanSteps(Steps(records, pastMinimums), k)
  }

  /** The next floor for a page whose list results are `listResults`. */
  function NextFloorOf(listResults: Json, pastMinimums: seq<nat>): Result<nat, FloorError> {
    match listResults
    case JArr(records) =>
      (match ScanBack(records, |records|, pastMinimums)
       case Found(p) => Success(p)
       case Failed => Failure(Malformed)
       case Exhausted => Failure(NoUsablePrice))
    case _ => Failure(Malformed)
  }

  /** The next floor for a decoded page. */
  function NextFloor(page: Json, pastMinimums: seq<nat>): (r: Result<nat, FloorError>)
    ensures ListResults(page).None? || !ListResults(page).value.JArr? ==> r == Failure(Malformed)
  {
    match ListResults(page)
    case None => Failure(Malformed)
    case Some(listResults) => NextFloorOf(listResults, pastMinimums)
  }

  /**
   * `listing_json[len(listing_json) - attempt_num]` in Python: attempts 1..len reach
   * the records from the last to the first, attempts len+1..2*len reach them again
   * through negative indices, and a later attempt raises IndexError.
   */
  function PythonIndex(len: nat, attempt: nat): (i: Option<nat>)
    requires attempt >= 1
    ensures i.Some? <==> attempt <= 2 * len
    ensures i.Some? ==> i.value < len
  {
    if attempt <= len then Some(len - attempt)
    else if attempt <= 2 * len then Some(2 * len - attempt)
    else None
  }

  /** `find_new_minimum(data, past_minimums)`. */
  method FindNewMinimum(data: Json, pastMinimums: seq<nat>) returns (r: Result<nat, FloorError>)
    ensures r == NextFloor(data, pastMinimums)
  {
    var listResults := ListResults(data);
    if listResults.None? || !listResults.value.JArr? {
      return Failure(Malformed);
    }
    r := ScanRecords(listResults.value.items, pastMinimums);
  }

  /** The `attempt_num` loop of `find_new_minimum`, over the page's records. */
  method ScanRecords(records: seq<Json>, pastMinimums: seq<nat>) returns (r: Result<nat, FloorError>)
    ensures r == NextFloorOf(JArr(records), pastMinimums)
  {
    var len := |records|;
    var attempt := 1;
    while true
      invariant attempt >= 1
      invariant attempt <= len + 1 ==>
                  ScanBack(records, len, pastMinimums) == ScanBack(records, len + 1 - attempt, pastMinimums)
      invariant attempt > len ==> ScanBack(records, len, pastMinimums) == Exhausted
      decreases 2 * len + 1 - attempt
    {
      var index := PythonIndex(len, attempt);
      if index.None? {
        assert ScanBack(records, len, pastMinimums) == Exhausted;
        return Failure(NoUsablePrice);
      }
      var step := RecordStep(records[index.value], pastMinimums);
      if attempt <= len {
        assert index.value == len - attempt;
        ScanBackStep(records, len + 1 - attempt, pastMinimums);
      } else if !step.Skip? {
        SkippedAll(records, len, pastMinimums, index.value);
        assert false;
      }
      if step.Price? {
        assert ScanBack(records, len, pastMinimums) == Found(step.p);
        return Success(step.p);
      } else if step.Fail? {
        assert ScanBack(records, len, pastMinimums) == Failed;
        return Failure(Malformed);
      }
      if attempt <= len {
        assert ScanBack(records, len, pastMinimums) == ScanBack(records, len - attempt, pastMinimums);
        assert attempt == len ==> ScanBack(records, len - attempt, pastMinimums) == Exhausted;
      }
      attempt := attempt + 1;
    }
  }

  /** The decision a record's step gives a scan that reaches it. */
  function Decision(step: RecordPrice): Scan
    requires !step.Skip?
  {
    if step.Price? then Found(step.p) else Failed
  }

  /** One step of the scan over steps: a skipped step hands over to the one before it. */
  lemma ScanStepsStep(steps: seq<RecordPrice>, k: nat)
    requires 0 < k <= |steps|
    ensures ScanSteps(steps, k) == if steps[k - 1].Skip? then ScanSteps(steps, k - 1) else Decision(steps[k - 1])
  {
  }

  /** An exhausted scan over steps skipped every step it looked at. */
  lemma {:induction false} StepsSkippedAll(steps: seq<RecordPrice>, k: nat, i: nat)
    requires i < k <= |steps|
    requires ScanSteps(steps, k) == Exhausted
    ensures steps[i] == Skip
  {
    if i < k - 1 {
      StepsSkippedAll(steps, k - 1, i);
    }
  }

  /** The scan over steps is decided by the last step that does not skip. */
  lemma {:induction false} StepsDecidedBy(steps: seq<RecordPrice>, k: nat, i: nat)
    requires i < k <= |steps|
    requires !steps[i].Skip?
    requires forall j :: i < j < k ==> steps[j].Skip?
    ensures ScanSteps(steps, k) == Decision(steps[i])
  {
    if i < k - 1 {
      StepsDecidedBy(steps, k - 1, i);
    }
  }

  /** The scan over steps runs out exactly when every step skips. */
  lemma {:induction false} StepsExhausted(steps: seq<RecordPrice>, k: nat)
    requires k <= |steps|
    ensures ScanSteps(steps, k) == Exhausted <==> forall j :: 0 <= j < k ==> steps[j].Skip?
  {
    if k > 0 {
      StepsExhausted(steps, k - 1);
    }
  }

  /** One step of the scan: a skipped record hands over to the one before it. */
  lemma ScanBackStep(records: seq<Json>, k: nat, pastMinimums: seq<nat>)
    requires 0 < k <= |records|
    ensures var step := RecordStep(records[k - 1], pastMinimums);
            ScanBack(records, k, pastMinimums) ==
              if step.Skip? then ScanBack(records, k - 1, pastMinimums) else Decision(step)
  {
    ScanStepsStep(Steps(records, pastMinimums), k);
  }

  /** An exhausted scan skipped every record it looked at. */
  lemma SkippedAll(records: seq<Json>, k: nat, pastMinimums: seq<nat>, i: nat)
    requires k <= |records| && i < k
    requires ScanBack(records, k, pastMinimums) == Exhausted
    ensures RecordStep(records[i], pastMinimums) == Skip
  {
    StepsSkippedAll(Steps(records, pastMinimums), k, i);
  }

  /** The scan is decided by the last record that does not skip. */
  lemma ScanDecidedBy(records: seq<Json>, k: nat, pastMinimums: seq<nat>, i: nat)
    requires i < k <= |records|
    requires !RecordStep(records[i], pastMinimums).Skip?
    requires forall j :: i < j < k ==> RecordStep(records[j], pastMinimums).Skip?
    ensures ScanBack(records, k, pastMinimums) == Decision(RecordStep(records[i], pastMinimums))
  {
    StepsDecidedBy(Steps(records, pastMinimums), k, i);
  }

  /** The scan runs out exactly when every record is skipped. */
  lemma ScanExhausted(records: seq<Json>, k: nat, pastMinimums: seq<nat>)
    requires k <= |records|
    ensures ScanBack(records, k, pastMinimums) == Exhausted
        <==> forall j :: 0 <= j < k ==> RecordStep(records[j], pastMinimums).Skip?
  {
    StepsExhausted(Steps(records, pastMinimums), k);
  }

  /** No usable price on the page, or no records at all: an IndexError. */
  lemma NoPriceEndsInError(records: seq<Json>, pastMinimums: seq<nat>)
    requires forall j :: 0 <= j < |records| ==> RecordStep(records[j], pastMinimums).Skip?
    ensures NextFloorOf(JArr(records), pastMinimums) == Failure(NoUsablePrice)
  {
    ScanExhausted(records, |records|, pastMinimums);
  }

  /** The past floors matter to a record only through their maximum. */
  lemma RecordStepSeesHighestFloor(rec: Json, p1: seq<nat>, p2: seq<nat>)
    requires p1 != [] && p2 != [] && Max(p1) == Max(p2)
    ensures RecordStep(rec, p1) == RecordStep(rec, p2)
  {
  }

  lemma ScanSeesHighestFloor(records: seq<Json>, k: nat, p1: seq<nat>, p2: seq<nat>)
    requires k <= |records|
    requires p1 != [] && p2 != [] && Max(p1) == Max(p2)
    ensures ScanBack(records, k, p1) == ScanBack(records, k, p2)
  {
    forall i | 0 <= i < |records|
      ensures Steps(records, p1)[i] == Steps(records, p2)[i]
    {
      RecordStepSeesHighestFloor(records[i], p1, p2);
    }
    assert Steps(records, p1) == Steps(records, p2);
  }


  /** Two histories of floors with the same maximum give the same next floor. */
  lemma NextFloorSeesHighestFloor(page: Json, p1: seq<nat>, p2: seq<nat>)
    requires p1 != [] && p2 != [] && Max(p1) == Max(p2)
    ensures NextFloor(page, p1) == NextFloor(page, p2)
  {
    var listResults := ListResults(page);
    if listResults.Some? {
      assert NextFloor(page, p1) == NextFloorOf(listResults.value, p1);
      assert NextFloor(page, p2) == NextFloorOf(listResults.value, p2);
      if listResults.value.JArr? {
        var records := listResults.value.items;
        ScanSeesHighestFloor(records, |records|, p1, p2);
      }
    }
  }

  /** Recording a floor twice in a row does not change the maximum. */
  lemma MaxRepeatLast(s: seq<nat>, x: nat)
    ensures Max(s + [x, x]) == Max(s + [x])
  {
    var a, b := Max(s + [x]), Max(s + [x, x]);
    assert a in s + [x, x] by {
      if a == x { assert (s + [x, x])[|s|] == x; }
      else { assert a in s; }
    }
    assert b in s + [x] by {
      if b == x { assert (s + [x])[|s|] == x; }
      else { assert b in s; }
    }
  }

  /** A grouped record whose `units` is a list of exactly `units`. */
  predicate GroupedWith(rec: Json, units: seq<Json>) {
    rec.JObj? && HasKey(rec.members, "units") && Lookup(rec.members, "units") == Some(JArr(units))
  }

  /** A plain record (no `units` key) whose price does not convert is passed over silently. */
  lemma PlainUnparsableSkipped(rec: Json, pastMinimums: seq<nat>)
    requires rec.JObj? && !HasKey(rec.members, "units")
    requires Lookup(rec.members, "unformattedPrice").None?
          || PlainPrice(Lookup(rec.members, "unformattedPrice").value).None?
    ensures RecordStep(rec, pastMinimums) == Skip
  {
  }

  /** A single unit gives its own price, whatever the past floors are. */
  lemma SingleUnitUnfiltered(rec: Json, unit: Json, p: nat, pastMinimums: seq<nat>)
    requires GroupedWith(rec, [unit]) && UnitPrice(unit) == Some(p)
    ensures RecordStep(rec, pastMinimums) == Price(p)
  {
  }

  /** A grouped record with no units is passed over. */
  lemma NoUnitsSkipped(rec: Json, pastMinimums: seq<nat>)
    requires GroupedWith(rec, [])
    ensures RecordStep(rec, pastMinimums) == Skip
  {
  }

  /** A unit price that does not convert is not caught: the whole search raises. */
  lemma MalformedUnitFails(rec: Json, units: seq<Json>, i: nat, pastMinimums: seq<nat>)
    requires GroupedWith(rec, units) && i < |units| && UnitPrice(units[i]).None?
    ensures RecordStep(rec, pastMinimums) == Fail
  {
  }

  /**
   * With several units, the price is the least converted price strictly below
   * `max(past_minimums)`, and the record is passed over when there is none.
   */
  lemma GroupedRecordPrice(rec: Json, units: seq<Json>, pastMinimums: seq<nat>)
    requires GroupedWith(rec, units) && |units| >= 2
    requires forall i :: 0 <= i < |units| ==> UnitPrice(units[i]).Some?
    requires pastMinimums != []
    ensures var prices := UnitPrices(units).value;
            var step := RecordStep(rec, pastMinimums);
            && !step.Fail?
            && (step.Price? ==> step.p < Max(pastMinimums) && step.p in prices
                                && forall q :: q in prices && q < Max(pastMinimums) ==> step.p <= q)
            && (step.Skip? <==> forall q :: q in prices ==> q >= Max(pastMinimums))
  {
  }

  /** A unit price written with a dollar sign, thousands separators and trailing plus signs. */
  lemma DecoratedUnitPrice(p: nat, tail: string)
    requires forall i :: 0 <= i < |tail| ==> tail[i] == '+'
    ensures UnitPrice(JObj([("price", JStr("$" + WithCommas(p) + tail))])) == Some(p)
  {
    var w := WithCommas(p);
    var text := "$" + w + tail;
    LookupAt([("price", JStr(text))], "price", 0);
    WithoutAppend("$" + w, tail, PriceDecorations);
    WithoutAppend("$", w, PriceDecorations);
    assert Without("$", PriceDecorations) == [];
    WithoutAllDropped(tail, PriceDecorations);
    WithoutSameOn(w, PriceDecorations, {','});
    var digits := Without(w, {','});
    assert Without(text, PriceDecorations) == digits;
    WithCommasValue(p);
    assert digits != [] by {
      assert w == [w[0]] + w[1..];
      WithoutAppend([w[0]], w[1..], {','});
    }
    assert ParseNat(digits) == Some(p);
  }

  function PricedUnit(price: string): Json {
    JObj([("price", JStr(price))])
  }

  /**
   * Units priced "$1,200+", "$950" and "$2,000" with past floors [0, 1000]: the filter as
   * written keeps only 950, the one price below 1000, and returns it.
   */
  lemma GroupExampleAsWritten()
    ensures RecordStep(JObj([("units", JArr([PricedUnit("$1,200+"), PricedUnit("$950"), PricedUnit("$2,000")]))]),
                       [0, 1000]) == Price(950)
  {
    var units := [PricedUnit("$1,200+"), PricedUnit("$950"), PricedUnit("$2,000")];
    var rec := JObj([("units", JArr(units))]);
    LookupAt(rec.members, "units", 0);
    assert rec.members[0].0 == "units";
    assert GroupedWith(rec, units);
    GroupedIsGroupPrice(rec, units, [0, 1000]);
    GroupExamplePrice(units);
  }

  lemma GroupedIsGroupPrice(rec: Json, units: seq<Json>, pastMinimums: seq<nat>)
    requires GroupedWith(rec, units) && |units| >= 2
    ensures RecordStep(rec, pastMinimums) == GroupPrice(units, pastMinimums)
  {
  }

  lemma GroupExamplePrice(units: seq<Json>)
    requires units == [PricedUnit("$1,200+"), PricedUnit("$950"), PricedUnit("$2,000")]
    ensures GroupPrice(units, [0, 1000]) == Price(950)
  {
    ExampleUnitPrices(units);
    ExampleFilter();
  }

  lemma ExampleUnitPrices(units: seq<Json>)
    requires units == [PricedUnit("$1,200+"), PricedUnit("$950"), PricedUnit("$2,000")]
    ensures UnitPrices(units) == Some([1200, 950, 2000])
  {
    ExamplePrices();
    ThreeUnitPrices(units[0], units[1], units[2], 1200, 950, 2000);
    assert units == [units[0], units[1], units[2]];
  }

  lemma ThreeUnitPrices(u1: Json, u2: Json, u3: Json, p1: nat, p2: nat, p3: nat)
    requires UnitPrice(u1) == Some(p1) && UnitPrice(u2) == Some(p2) && UnitPrice(u3) == Some(p3)
    ensures UnitPrices([u1, u2, u3]) == Some([p1, p2, p3])
  {
    assert [u1, u2, u3][1..] == [u2, u3] && [u2, u3][1..] == [u3] && [u3][1..] == [];
    assert UnitPrices([]) == Some([]);
    assert [p3] + [] == [p3];
    assert UnitPrices([u3]) == Some([p3]);
    assert UnitPrices([u2, u3]) == Some([p2] + [p3]);
    assert [p1] + ([p2] + [p3]) == [p1, p2, p3];
  }

  lemma ExampleFilter()
    ensures Max([0, 1000]) == 1000
    ensures Below([1200, 950, 2000], 1000) == [950]
    ensures Min([950]) == 950
  {
    assert [0, 1000][1..] == [1000];
    var prices: seq<nat> := [1200, 950, 2000];
    assert prices[1..] == [950, 2000] && prices[1..][1..] == [2000] && prices[1..][1..][1..] == [];
  }

  lemma ExamplePrices()
    ensures UnitPrice(PricedUnit("$1,200+")) == Some(1200)
    ensures UnitPrice(PricedUnit("$950")) == Some(950)
    ensures UnitPrice(PricedUnit("$2,000")) == Some(2000)
  {
    ExampleDigits();
    DecoratedUnitPrice(1200, "+");
    DecoratedUnitPrice(950, "");
    DecoratedUnitPrice(2000, "");
    assert "$950" == "$" + "950" + "";
    assert "$2,000" == "$" + "2,000" + "";
    assert "$1,200+" == "$" + "1,200" + "+";
  }

  lemma ExampleDigits()
    ensures WithCommas(950) == "950" && WithCommas(1200) == "1,200" && WithCommas(2000) == "2,000"
  {
    assert NatToString(9) == "9";
    assert NatToString(95) == "95";
    assert NatToString(950) == "950";
    assert Pad3(200) == "200" && Pad3(0) == "000";
    assert NatToString(1) == "1" && NatToString(2) == "2";
  }
}
