/** Python's `dict` with string keys: a mapping that remembers the order in
    which keys were first inserted. Assigning to a key that is already present
    replaces its value and keeps its position. */
module PyDict {

  datatype Dict<V> = Dict(keys: seq<string>, items: map<string, V>) {

    /** Keys are distinct and are exactly the mapped ones. */
    ghost predicate Valid() {
      && (forall i, j :: 0 <= i < j < |keys| ==> keys[i] != keys[j])
      && (forall k :: k in items <==> k in keys)
    }

    /** `d[k] = v`. */
    function Set(k: string, v: V): (d: Dict<V>)
      ensures d.items == items[k := v]
      ensures k in items ==> d.keys == keys
      ensures k !in items ==> d.keys == keys + [k]
      ensures Valid() ==> d.Valid()
    {
      if k in items then Dict(keys, items[k := v]) else Dict(keys + [k], items[k := v])
    }

    /** `d.get(k, default)`. */
    function Get(k: string, default: V): (v: V)
      ensures k in items ==> v == items[k]
      ensures k !in items ==> v == default
    {
      if k in items then items[k] else default
    }
  }

  function Empty<V>(): (d: Dict<V>)
    ensures d.Valid() && d.keys == [] && d.items == map[]
  {
    Dict([], map[])
  }
}
