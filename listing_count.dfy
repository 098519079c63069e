/**
 * The results-count hint of a search page (`extract_listing_count`): the text of
 * the `result-count` span, searched for its first run of digits and commas.
 */
module ListingCount {
  import opened Wrappers
  import opened Digits

  /** What the extractor returns: a number, or Python `None` when the text holds no digit or comma. */
  datatype Count = Listings(n: nat) | NoCount

  /** The `TypeError` the extractor raises. */
  datatype CountError = CountError

  /** A character of the regular expression class `[\d,]`. */
  predicate InRun(c: char) {
    IsDigit(c) || c == ','
  }

  /** The text from the first `[\d,]` character on (empty when there is none). */
  function FromFirstRun(t: string): (r: string)
    ensures |r| <= |t| && r == t[|t| - |r|..]
    ensures r == [] || InRun(r[0])
    ensures forall i :: 0 <= i < |t| - |r| ==> !InRun(t[i])
  {
    if t == [] || InRun(t[0]) then t else FromFirstRun(t[1..])
  }

  /** The longest prefix of `t` made of `[\d,]` characters: the greedy match. */
  function LeadingRun(t: string): (r: string)
    ensures r <= t
    ensures forall i :: 0 <= i < |r| ==> InRun(r[i])
    ensures |r| == |t| || !InRun(t[|r|])
  {
    if t == [] || !InRun(t[0]) then [] else [t[0]] + LeadingRun(t[1..])
  }

  /** `re.search(r'([\d,]+)', t)`: the first maximal run, or None. */
  function FirstRun(t: string): (r: Option<string>)
  {
    var rest := FromFirstRun(t);
    if rest == [] then None else Some(LeadingRun(rest))
  }

  /**
   * `extract_listing_count` applied to the span text (None when the span is absent):
   * the run's digits with the commas removed, read as a decimal number.
   */
  function ExtractListingCount(span: Option<string>): (r: Result<Count, CountError>)
    ensures span.None? ==> r == Failure(CountError)
    ensures r == Success(NoCount) ==> span.Some? && forall i :: 0 <= i < |span.value| ==> !InRun(span.value[i])
  {
    match span
    case None => Failure(CountError)
    case Some(t) =>
      match FirstRun(t)
      case None => Success(NoCount)
      case Some(run) =>
        var digits := Without(run, {','});
        if digits == [] then Failure(CountError)
        else
          RunDigits(run);
          Success(Listings(DigitsValue(digits)))
  }

  /** `t[i..j]` is the first maximal `[\d,]` run of `t`. */
  predicate FirstRunAt(t: string, i: nat, j: nat) {
    && i < j <= |t|
    && (forall k :: 0 <= k < i ==> !InRun(t[k]))
    && (forall k :: i <= k < j ==> InRun(t[k]))
    && (j == |t| || !InRun(t[j]))
  }

  /** There is one first maximal run at most, and `FromFirstRun` and `LeadingRun` locate it. */
  lemma {:induction false} FirstRunAtUnique(t: string, i: nat, j: nat)
    requires FirstRunAt(t, i, j)
    ensures FromFirstRun(t) != []
    ensures i == |t| - |FromFirstRun(t)| && j == i + |LeadingRun(FromFirstRun(t))|
  {
    assert InRun(t[i]);
    RunBounds(t);
  }

  /** A text without a `[\d,]` character has no first run. */
  lemma {:induction false} NoFirstRunAt(t: string)
    requires FromFirstRun(t) == []
    ensures forall i: nat, j: nat :: !FirstRunAt(t, i, j)
  {
    forall i: nat, j: nat ensures !FirstRunAt(t, i, j) {
      if i < j <= |t| {
        assert !InRun(t[i]);
      }
    }
  }

  /** Removing the commas empties a text exactly when it is commas only. */
  lemma {:induction false} CommasOnlyRun(run: string)
    ensures Without(run, {','}) == [] <==> forall m :: 0 <= m < |run| ==> run[m] == ','
  {
    if Without(run, {','}) == [] {
      WithoutEmpty(run, {','});
    }
    if forall m :: 0 <= m < |run| ==> run[m] == ',' {
      WithoutAllDropped(run, {','});
    }
  }

  /** A slice is commas only exactly when the string it equals is. */
  lemma {:induction false} CommasOnlySlice(t: string, i: nat, j: nat, run: string)
    requires i <= j <= |t| && t[i..j] == run
    ensures (forall k :: i <= k < j ==> t[k] == ',') <==> (forall m :: 0 <= m < |run| ==> run[m] == ',')
  {
    assert forall k :: i <= k < j ==> t[k] == run[k - i];
  }

  /**
   * What `extract_listing_count` reads: it raises without a span, gives no count exactly
   * when the text has no digit or comma, raises exactly when the first maximal `[\d,]` run
   * is commas only, and otherwise gives that run's number with its commas removed.
   */
  lemma {:induction false} CountReadsFirstRun(span: Option<string>)
    ensures var r := ExtractListingCount(span);
            && (span.None? ==> r == Failure(CountError))
            && (span.Some? ==>
                  (r == Success(NoCount) <==> forall i :: 0 <= i < |span.value| ==> !InRun(span.value[i])))
            && (span.Some? ==>
                  (r.Failure? <==>
                     exists i: nat, j: nat :: FirstRunAt(span.value, i, j)
                                 && forall k :: i <= k < j ==> span.value[k] == ','))
            && (r.Success? && r.value.Listings? ==>
                  exists i: nat, j: nat :: FirstRunAt(span.value, i, j)
                              && ParseNat(Without(span.value[i..j], {','})) == Some(r.value.n))
  {
    if span.Some? {
      var t := span.value;
      var rest := FromFirstRun(t);
      if rest == [] {
        assert ExtractListingCount(span) == Success(NoCount);
        NoFirstRunAt(t);
      } else {
        FailsExactlyOnCommas(t);
        CountAtFirstRun(t);
      }
    }
  }

  /** With a run present, the read raises exactly when the first run is commas only. */
  lemma {:induction false} FailsExactlyOnCommas(t: string)
    requires FromFirstRun(t) != []
    ensures ExtractListingCount(Some(t)).Failure? <==>
              exists i: nat, j: nat :: FirstRunAt(t, i, j) && forall k :: i <= k < j ==> t[k] == ','
  {
    var run := LeadingRun(FromFirstRun(t));
    assert FirstRun(t) == Some(run);
    if Without(run, {','}) == [] {
      assert ExtractListingCount(Some(t)) == Failure(CountError);
      CommasRunFound(t);
    } else {
      RunDigits(run);
      assert ExtractListingCount(Some(t)) == Success(Listings(DigitsValue(Without(run, {','}))));
      DigitRunFound(t);
    }
  }

  /** A first run emptied by removing its commas is a commas-only first run. */
  lemma {:induction false} CommasRunFound(t: string)
    requires FromFirstRun(t) != []
    requires Without(LeadingRun(FromFirstRun(t)), {','}) == []
    ensures exists i: nat, j: nat :: FirstRunAt(t, i, j) && forall k :: i <= k < j ==> t[k] == ','
  {
    var i0, j0 := FirstRunLocated(t);
    CommasRunAt(t, i0, j0, LeadingRun(FromFirstRun(t)));
  }

  /** A first run `t[i..j]` that removing its commas empties is a commas-only first run. */
  lemma CommasRunAt(t: string, i: nat, j: nat, run: string)
    requires FirstRunAt(t, i, j) && i <= j <= |t| && t[i..j] == run && Without(run, {','}) == []
    ensures exists i: nat, j: nat :: FirstRunAt(t, i, j) && forall k :: i <= k < j ==> t[k] == ','
  {
    CommasOnlyRun(run);
    CommasOnlySlice(t, i, j, run);
    CommasWitness(t, i, j);
  }

  lemma CommasWitness(t: string, i: nat, j: nat)
    requires FirstRunAt(t, i, j) && forall k :: i <= k < j ==> t[k] == ','
    ensures exists i: nat, j: nat :: FirstRunAt(t, i, j) && forall k :: i <= k < j ==> t[k] == ','
  {
  }

  /** A first run that keeps a digit is no commas-only first run. */
  lemma {:induction false} DigitRunFound(t: string)
    requires FromFirstRun(t) != []
    requires Without(LeadingRun(FromFirstRun(t)), {','}) != []
    ensures forall i: nat, j: nat :: FirstRunAt(t, i, j) ==> !(forall k :: i <= k < j ==> t[k] == ',')
  {
    var run := LeadingRun(FromFirstRun(t));
    RunSlice(t);
    var i0: nat := |t| - |FromFirstRun(t)|;
    var j0: nat := i0 + |run|;
    CommasOnlyRun(run);
    CommasOnlySlice(t, i0, j0, run);
    forall i: nat, j: nat | FirstRunAt(t, i, j)
      ensures !(forall k :: i <= k < j ==> t[k] == ',')
    {
      FirstRunAtUnique(t, i, j);
    }
  }

  /** With a run present, a count read is the first run's number with its commas removed. */
  lemma {:induction false} CountAtFirstRun(t: string)
    requires FromFirstRun(t) != []
    ensures var r := ExtractListingCount(Some(t));
            r.Success? ==>
              && r.value.Listings?
              && exists i: nat, j: nat :: FirstRunAt(t, i, j) && ParseNat(Without(t[i..j], {','})) == Some(r.value.n)
  {
    var r := ExtractListingCount(Some(t));
    if r.Success? {
      CountIsRunValue(t);
      var i0, j0 := FirstRunLocated(t);
      RunWitness(t, i0, j0, LeadingRun(FromFirstRun(t)), r.value.n);
    }
  }

  lemma RunWitness(t: string, i: nat, j: nat, run: string, n: nat)
    requires FirstRunAt(t, i, j) && t[i..j] == run && ParseNat(Without(run, {','})) == Some(n)
    ensures exists i: nat, j: nat :: FirstRunAt(t, i, j) && ParseNat(Without(t[i..j], {','})) == Some(n)
  {
  }

  /** With a run present, a count read is the number the run spells once its commas are removed. */
  lemma {:induction false} CountIsRunValue(t: string)
    requires FromFirstRun(t) != []
    ensures var r := ExtractListingCount(Some(t));
            r.Success? ==>
              r.value.Listings? && ParseNat(Without(LeadingRun(FromFirstRun(t)), {','})) == Some(r.value.n)
  {
    var run := LeadingRun(FromFirstRun(t));
    assert FirstRun(t) == Some(run);
    RunDigits(run);
  }

  /** The first maximal run, as `FromFirstRun` and `LeadingRun` find it, is a `FirstRunAt` slice. */
  lemma {:induction false} FirstRunLocated(t: string) returns (i: nat, j: nat)
    requires FromFirstRun(t) != []
    ensures i == |t| - |FromFirstRun(t)| && j == i + |LeadingRun(FromFirstRun(t))|
    ensures FirstRunAt(t, i, j) && t[i..j] == LeadingRun(FromFirstRun(t))
  {
    var rest := FromFirstRun(t);
    i := |t| - |rest|;
    j := i + |LeadingRun(rest)|;
    RunSlice(t);
    assert t[i..j] == LeadingRun(rest);
    RunInside(t);
    RunEnds(t);
    FirstRunAtIntro(t, i, j);
  }

  lemma FirstRunAtIntro(t: string, i: nat, j: nat)
    requires i < j <= |t|
    requires forall k :: 0 <= k < i ==> !InRun(t[k])
    requires forall k :: i <= k < j ==> InRun(t[k])
    requires j == |t| || !InRun(t[j])
    ensures FirstRunAt(t, i, j)
  {
  }

  /** The first maximal run starts at `|t| - |FromFirstRun(t)|` and is a slice of `t`. */
  lemma RunSlice(t: string)
    requires FromFirstRun(t) != []
    ensures var rest := FromFirstRun(t);
            var i := |t| - |rest|;
            i + |LeadingRun(rest)| <= |t| && t[i..i + |LeadingRun(rest)|] == LeadingRun(rest)
  {
    var rest := FromFirstRun(t);
    var run := LeadingRun(rest);
    var i := |t| - |rest|;
    assert rest == t[i..];
    assert run == rest[..|run|];
  }

  /** Every character of the first maximal run is in `[\d,]`, and so is its first. */
  lemma RunInside(t: string)
    requires FromFirstRun(t) != []
    ensures var rest := FromFirstRun(t);
            var i := |t| - |rest|;
            var j := i + |LeadingRun(rest)|;
            && i < j <= |t|
            && (forall k :: i <= k < j ==> InRun(t[k]))
  {
    var rest := FromFirstRun(t);
    var run := LeadingRun(rest);
    var i := |t| - |rest|;
    RunSlice(t);
    assert run != [] by { assert InRun(rest[0]); }
    var slice := t[i..i + |run|];
    assert slice == run;
    forall k | i <= k < i + |run| ensures InRun(t[k]) {
      assert t[k] == slice[k - i];
      assert InRun(run[k - i]);
    }
  }

  /** The first maximal run ends at the end of `t` or before a character outside `[\d,]`. */
  lemma RunEnds(t: string)
    requires FromFirstRun(t) != []
    ensures var rest := FromFirstRun(t);
            var j := |t| - |rest| + |LeadingRun(rest)|;
            j <= |t| && (j == |t| || !InRun(t[j]))
  {
    var rest := FromFirstRun(t);
    var run := LeadingRun(rest);
    var i := |t| - |rest|;
    assert rest == t[i..];
    if i + |run| < |t| {
      assert t[i + |run|] == rest[|run|];
    }
  }

  /** Where the first maximal run lies: after a prefix without `[\d,]`, up to a non-run character or the end. */
  lemma RunBounds(t: string)
    requires FromFirstRun(t) != []
    ensures var rest := FromFirstRun(t);
            var i := |t| - |rest|;
            var j := i + |LeadingRun(rest)|;
            && 0 <= i < j <= |t|
            && (forall k :: 0 <= k < i ==> !InRun(t[k]))
            && (forall k :: i <= k < j ==> InRun(t[k]))
            && (j == |t| || !InRun(t[j]))
            && t[i..j] == LeadingRun(rest)
  {
    RunSlice(t);
    RunInside(t);
    RunEnds(t);
  }

  lemma RunFound(t: string)
    requires FromFirstRun(t) != []
    ensures var r := ExtractListingCount(Some(t));
            && r != Success(NoCount)
            && (exists k :: 0 <= k < |t| && InRun(t[k]))
            && (r.Success? ==>
                  var i, j := |t| - |FromFirstRun(t)|, |t| - |FromFirstRun(t)| + |LeadingRun(FromFirstRun(t))|;
                  && 0 <= i < j <= |t|
                  && (forall k :: 0 <= k < i ==> !InRun(t[k]))
                  && (forall k :: i <= k < j ==> InRun(t[k]))
                  && (j == |t| || !InRun(t[j]))
                  && ParseNat(Without(t[i..j], {','})) == Some(r.value.n))
  {
    var run := LeadingRun(FromFirstRun(t));
    var i := |t| - |FromFirstRun(t)|;
    RunBounds(t);
    assert InRun(t[i]);
    var digits := Without(run, {','});
    RunDigits(run);
    if digits == [] {
      assert ExtractListingCount(Some(t)) == Failure(CountError);
    } else {
      assert ExtractListingCount(Some(t)) == Success(Listings(DigitsValue(digits)));
    }
  }

  /** The commas removed, a `[\d,]` run is empty or all digits. */
  lemma RunDigits(run: string)
    requires forall k :: 0 <= k < |run| ==> InRun(run[k])
    ensures var digits := Without(run, {','});
            digits == [] || (AllDigits(digits) && ParseNat(digits) == Some(DigitsValue(digits)))
  {
    var digits := Without(run, {','});
    assert AllDigits(digits) by {
      forall k | 0 <= k < |digits| ensures IsDigit(digits[k]) {
        assert digits[k] in multiset(digits);
        DigitsOfRunAreDigits(run, digits[k]);
      }
    }
  }

  lemma DigitsOfRunAreDigits(run: string, c: char)
    requires forall k :: 0 <= k < |run| ==> InRun(run[k])
    requires c in multiset(Without(run, {','}))
    ensures IsDigit(c)
  {
    ForallCharsNotIn(Without(run, {','}), c);
    WithoutKeepsOthers(run, {','}, c);
    assert c in run;
  }

  lemma ForallCharsNotIn(s: string, c: char)
    requires forall i :: 0 <= i < |s| ==> s[i] != ','
    requires c in multiset(s)
    ensures c != ','
  {
    assert c in s;
  }

  lemma {:induction false} SkipsToRun(prefix: string, rest: string)
    requires forall i :: 0 <= i < |prefix| ==> !InRun(prefix[i])
    requires rest == [] || InRun(rest[0])
    ensures FromFirstRun(prefix + rest) == rest
  {
    if prefix != [] {
      assert (prefix + rest)[1..] == prefix[1..] + rest;
      SkipsToRun(prefix[1..], rest);
    } else {
      assert prefix + rest == rest;
    }
  }

  lemma {:induction false} RunStopsAtSuffix(run: string, suffix: string)
    requires forall i :: 0 <= i < |run| ==> InRun(run[i])
    requires suffix == [] || !InRun(suffix[0])
    ensures LeadingRun(run + suffix) == run
  {
    if run != [] {
      assert (run + suffix)[1..] == run[1..] + suffix;
      RunStopsAtSuffix(run[1..], suffix);
    } else {
      assert run + suffix == suffix;
    }
  }

  /**
   * Round trip: a count printed with thousands separators, between text that holds
   * no digit or comma and text that does not continue the run, is read back exactly.
   */
  lemma CountRoundTrip(prefix: string, n: nat, suffix: string)
    requires forall i :: 0 <= i < |prefix| ==> !InRun(prefix[i])
    requires suffix == [] || !InRun(suffix[0])
    ensures ExtractListingCount(Some(prefix + WithCommas(n) + suffix)) == Success(Listings(n))
  {
    var w := WithCommas(n);
    assert prefix + w + suffix == prefix + (w + suffix);
    SkipsToRun(prefix, w + suffix);
    RunStopsAtSuffix(w, suffix);
    WithCommasValue(n);
    assert Without(w, {','}) != [] by {
      assert w == [w[0]] + w[1..];
      WithoutAppend([w[0]], w[1..], {','});
    }
  }

  /** A run made only of commas (such as ",") has no digits: `int("")` fails and the error is re-raised. */
  lemma CommasOnlyFail(prefix: string, commas: string, suffix: string)
    requires forall i :: 0 <= i < |prefix| ==> !InRun(prefix[i])
    requires commas != [] && forall i :: 0 <= i < |commas| ==> commas[i] == ','
    requires suffix == [] || !InRun(suffix[0])
    ensures ExtractListingCount(Some(prefix + commas + suffix)).Failure?
  {
    assert prefix + commas + suffix == prefix + (commas + suffix);
    SkipsToRun(prefix, commas + suffix);
    RunStopsAtSuffix(commas, suffix);
    WithoutAllDropped(commas, {','});
  }
}
