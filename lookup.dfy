/**
 * The first-match table search used by the label decorators: walk an
 * ordered table of (key, value) entries and return the value of the first
 * key found inside the label, or a fallback when no key is found.
 */
module Lookup {
  import opened Wrappers
  import opened Strings

  /** Whether keys are compared as written or after lower-casing both sides. */
  datatype Matching = CaseSensitive | IgnoreCase

  /** `name.includes(key)`, or `name.toLowerCase().includes(key.toLowerCase())`. */
  predicate KeyMatches(mode: Matching, key: string, name: string) {
    match mode
    case CaseSensitive => Contains(name, key)
    case IgnoreCase => Contains(Lower(name), Lower(key))
  }

  /** The position of the first entry, in table order, whose key matches the label. */
  function FirstMatch<V>(table: seq<(string, V)>, mode: Matching, name: string): (r: Option<nat>)
    ensures r.Some? ==> r.value < |table| && KeyMatches(mode, table[r.value].0, name)
    ensures r.Some? ==> forall j :: 0 <= j < r.value ==> !KeyMatches(mode, table[j].0, name)
    ensures r.None? <==> forall j :: 0 <= j < |table| ==> !KeyMatches(mode, table[j].0, name)
    decreases |table|
  {
    if |table| == 0 then None
    else if KeyMatches(mode, table[0].0, name) then Some(0)
    else
      match FirstMatch(table[1..], mode, name)
      case None => None
      case Some(i) => Some(i + 1)
  }

  /** The value of the first matching entry, or `fallback` when no key matches. */
  function Find<V>(table: seq<(string, V)>, mode: Matching, name: string, fallback: V): V {
    match FirstMatch(table, mode, name)
    case Some(i) => table[i].1
    case None => fallback
  }

  /** Keys that do not match can be skipped: an entry at position k wins when all before it fail. */
  lemma FindAt<V>(table: seq<(string, V)>, mode: Matching, name: string, fallback: V, k: nat)
    requires k < |table| && KeyMatches(mode, table[k].0, name)
    requires forall j :: 0 <= j < k ==> !KeyMatches(mode, table[j].0, name)
    ensures Find(table, mode, name, fallback) == table[k].1
  {
  }
}
