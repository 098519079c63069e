/**
 * Decoded JSON documents as the crawler sees them after `json.loads`.
 * An object keeps its members in insertion order, as a Python dict does;
 * a key is looked up at its first occurrence.
 */
module JsonValue {
  import opened Wrappers

  datatype Json =
    | JNull
    | JBool(b: bool)
    | JNum(n: nat)
    | JStr(s: string)
    | JArr(items: seq<Json>)
    | JObj(members: seq<(string, Json)>)

  /** The value stored under `key` (Python `d[key]` on a dict), or None for a missing key. */
  function Lookup(members: seq<(string, Json)>, key: string): (r: Option<Json>)
    ensures r.None? <==> forall i :: 0 <= i < |members| ==> members[i].0 != key
    ensures r.Some? ==> (key, r.value) in members
  {
    if members == [] then None
    else if members[0].0 == key then Some(members[0].1)
    else Lookup(members[1..], key)
  }

  /** The first member holding `key` gives the value. */
  lemma {:induction false} LookupAt(members: seq<(string, Json)>, key: string, i: nat)
    requires i < |members| && members[i].0 == key
    requires forall j :: 0 <= j < i ==> members[j].0 != key
    ensures Lookup(members, key) == Some(members[i].1)
  {
    if i > 0 {
      LookupAt(members[1..], key, i - 1);
    }
  }

  /** Members before the first one holding `key` do not change what it finds. */
  lemma {:induction false} LookupSkip(head: seq<(string, Json)>, tail: seq<(string, Json)>, key: string)
    requires forall i :: 0 <= i < |head| ==> head[i].0 != key
    ensures Lookup(head + tail, key) == Lookup(tail, key)
  {
    if head != [] {
      assert (head + tail)[1..] == head[1..] + tail;
      LookupSkip(head[1..], tail, key);
    } else {
      assert head + tail == tail;
    }
  }

  /** `j[key]`: succeeds only on a dict that holds the key (a KeyError or TypeError otherwise). */
  function Get(j: Json, key: string): (r: Option<Json>)
    ensures r.Some? ==> j.JObj? && (key, r.value) in j.members
    ensures j.JObj? && (exists i :: 0 <= i < |j.members| && j.members[i].0 == key) ==> r.Some?
  {
    if j.JObj? then Lookup(j.members, key) else None
  }

  /** `key in d` for a dict `d`. */
  predicate HasKey(members: seq<(string, Json)>, key: string) {
    exists i :: 0 <= i < |members| && members[i].0 == key
  }

  /** Python's `len`: defined on strings, lists and dicts only (a TypeError otherwise). */
  function PyLen(j: Json): (r: Option<nat>)
    ensures r.Some? <==> (j.JStr? || j.JArr? || j.JObj?)
    ensures j.JArr? ==> r == Some(|j.items|)
  {
    match j
    case JStr(s) => Some(|s|)
    case JArr(items) => Some(|items|)
    case JObj(members) => Some(|members|)
    case _ => None
  }

  /** Python truthiness of a decoded value, as checked by `if data:`. */
  predicate Truthy(j: Json) {
    match j
    case JNull => false
    case JBool(b) => b
    case JNum(n) => n != 0
    case JStr(s) => s != []
    case JArr(items) => items != []
    case JObj(members) => members != []
  }

  /** `j[k1][k2]...` along a path of dict keys. */
  function GetPath(j: Json, path: seq<string>): Option<Json>
    decreases |path|
  {
    if path == [] then Some(j)
    else match Get(j, path[0])
      case None => None
      case Some(child) => GetPath(child, path[1..])
  }

  /** Where a page payload keeps its listing records. */
  const ListResultsPath: seq<string> :=
    ["props", "pageProps", "searchPageState", "cat1", "searchResults", "listResults"]

  /** `data['props']['pageProps']['searchPageState']['cat1']['searchResults']['listResults']`. */
  function ListResults(page: Json): Option<Json> {
    GetPath(page, ListResultsPath)
  }
}
