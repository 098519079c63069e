/**
 * The floor-plan lookup (`extract_floor_plans`): a depth-first search of a decoded
 * JSON tree for the first dict holding a `floorPlans` key. A dict is checked for its
 * own key before its values are searched; values and list items are searched in order.
 */
module FloorPlans {
  import opened Wrappers
  import opened JsonValue

  const Key: string := "floorPlans"

  /** The values of a dict or the items of a list, in iteration order; nothing for a scalar. */
  function Children(j: Json): (c: seq<Json>)
    ensures forall k :: 0 <= k < |c| ==> c[k] < j
  {
    match j
    case JArr(items) => items
    case JObj(members) => seq(|members|, k requires 0 <= k < |members| => members[k].1)
    case _ => []
  }

  /** A dict that holds the key itself. */
  predicate HoldsKey(j: Json) {
    j.JObj? && HasKey(j.members, Key)
  }

  /** Python `None` for a JSON null: returning `d["floorPlans"]` when it is null reads as not found. */
  function NonNull(v: Json): Option<Json> {
    if v == JNull then None else Some(v)
  }

  /** `extract_floor_plans(data)`, characterised by OwnKeyFirst, FirstChildWins and NoChildNoResult. */
  function FloorPlans(j: Json): (r: Option<Json>)
    ensures r.Some? ==> r.value != JNull
    decreases j, |Children(j)| + 1
  {
    if HoldsKey(j) then NonNull(Lookup(j.members, Key).value)
    else FirstFrom(j, 0)
  }

  /** The loop over `data.items()` or over the list: the first child from `i` on with a result. */
  function FirstFrom(parent: Json, i: nat): (r: Option<Json>)
    ensures r.Some? ==> r.value != JNull
    decreases parent, |Children(parent)| - i
  {
    if i >= |Children(parent)| then None
    else
      var r := FloorPlans(Children(parent)[i]);
      if r.Some? then r else FirstFrom(parent, i + 1)
  }

  /** Some dict anywhere in the tree holds the key. */
  predicate MentionsKey(j: Json)
    decreases j
  {
    HoldsKey(j) || exists k :: 0 <= k < |Children(j)| && MentionsKey(Children(j)[k])
  }

  /** `v` is the `floorPlans` value of some dict in the tree. */
  predicate HasFloorPlans(j: Json, v: Json)
    decreases j
  {
    (HoldsKey(j) && Lookup(j.members, Key) == Some(v))
    || exists k :: 0 <= k < |Children(j)| && HasFloorPlans(Children(j)[k], v)
  }

  /** A tree in which no dict holds the key gives None. */
  lemma {:induction false} NoKeyNoResult(j: Json)
    requires !MentionsKey(j)
    ensures FloorPlans(j) == None
    decreases j, |Children(j)| + 1
  {
    NoKeyNoResultFrom(j, 0);
  }

  lemma {:induction false} NoKeyNoResultFrom(parent: Json, i: nat)
    requires !MentionsKey(parent)
    ensures FirstFrom(parent, i) == None
    decreases parent, |Children(parent)| - i
  {
    if i < |Children(parent)| {
      NoKeyNoResult(Children(parent)[i]);
      NoKeyNoResultFrom(parent, i + 1);
    }
  }

  /** A result is never null and is the `floorPlans` value of a dict in the tree. */
  lemma {:induction false} ResultIsSomeFloorPlans(j: Json)
    ensures FloorPlans(j).Some? ==> FloorPlans(j).value != JNull && HasFloorPlans(j, FloorPlans(j).value)
    decreases j, |Children(j)| + 1
  {
    if !HoldsKey(j) {
      ResultIsSomeFloorPlansFrom(j, 0);
    }
  }

  lemma {:induction false} ResultIsSomeFloorPlansFrom(parent: Json, i: nat)
    ensures FirstFrom(parent, i).Some? ==>
              FirstFrom(parent, i).value != JNull && HasFloorPlans(parent, FirstFrom(parent, i).value)
    decreases parent, |Children(parent)| - i
  {
    if i < |Children(parent)| {
      var child := Children(parent)[i];
      ResultIsSomeFloorPlans(child);
      ResultIsSomeFloorPlansFrom(parent, i + 1);
    }
  }

  /**
   * A dict holding the key answers with its own value and its values are not searched:
   * a non-null value is the result, and a null one gives None even when a value below
   * holds the key.
   */
  lemma OwnKeyFirst(j: Json)
    requires HoldsKey(j)
    ensures Lookup(j.members, Key).value != JNull ==> FloorPlans(j) == Lookup(j.members, Key)
    ensures Lookup(j.members, Key).value == JNull ==> FloorPlans(j) == None
  {
  }

  /**
   * A dict without the key whose values (or a list whose items) all give None gives
   * None, even when a value deeper down holds the key under a null: the final `return None`.
   */
  lemma {:induction false} NoChildNoResult(j: Json)
    requires !HoldsKey(j)
    requires forall k :: 0 <= k < |Children(j)| ==> FloorPlans(Children(j)[k]).None?
    ensures FloorPlans(j) == None
  {
    NoChildNoResultFrom(j, 0);
  }

  lemma {:induction false} NoChildNoResultFrom(parent: Json, i: nat)
    requires forall k :: i <= k < |Children(parent)| ==> FloorPlans(Children(parent)[k]).None?
    ensures FirstFrom(parent, i) == None
    decreases |Children(parent)| - i
  {
    if i < |Children(parent)| {
      NoChildNoResultFrom(parent, i + 1);
    }
  }

  /** Otherwise the first child, in order, with a result gives it. */
  lemma {:induction false} FirstChildWins(j: Json, k: nat)
    requires !HoldsKey(j) && k < |Children(j)|
    requires FloorPlans(Children(j)[k]).Some?
    requires forall m :: 0 <= m < k ==> FloorPlans(Children(j)[m]).None?
    ensures FloorPlans(j) == FloorPlans(Children(j)[k])
  {
    FirstFromSkips(j, 0, k);
  }

  lemma {:induction false} FirstFromSkips(parent: Json, i: nat, k: nat)
    requires i <= k < |Children(parent)|
    requires FloorPlans(Children(parent)[k]).Some?
    requires forall m :: i <= m < k ==> FloorPlans(Children(parent)[m]).None?
    ensures FirstFrom(parent, i) == FloorPlans(Children(parent)[k])
    decreases k - i
  {
    if i < k {
      FirstFromSkips(parent, i + 1, k);
    }
  }
}
