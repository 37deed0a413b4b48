/**
 * Python dictionaries whose iteration order the program depends on: a list
 * of distinct keys in insertion order and the map they index.
 */
module Dicts {

  datatype OrderedDict<V> = OrderedDict(keys: seq<string>, entries: map<string, V>)

  ghost predicate WellFormed<V>(d: OrderedDict<V>) {
    (forall i, j :: 0 <= i < j < |d.keys| ==> d.keys[i] != d.keys[j]) &&
    (forall k :: k in d.entries <==> k in d.keys)
  }

  type Dict<V> = d: OrderedDict<V> | WellFormed(d) witness OrderedDict([], map[])

  /** `{}`. */
  function EmptyDict<V>(): (d: Dict<V>)
    ensures d.keys == [] && d.entries == map[]
  {
    OrderedDict([], map[])
  }
}
