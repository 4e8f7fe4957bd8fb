/** `_stack_values` and `aggregate_cp_records` of multiwfn_cli/cp_parser.py:
    the records `parse_cp_file` returns are pivoted into one column per field
    key, and each column becomes the most specific array numpy allows. An
    array is modelled by its kind and the values it holds; numpy's dtype
    conversions beyond that choice are not part of the model. */
module CpAggregate {
  import opened Wrappers
  import opened PyDict
  import opened CpParser

  const KEY_MAP := "key_map"
  const RAW_BLOCK := "raw_block"

  /** The array built for one key. */
  datatype Column =
    | IntColumn(ints: seq<int>)                            // dtype=int
    | FloatColumn(numbers: seq<Value>)                     // dtype=float, from ints and floats
    | StrColumn(strs: seq<string>)                         // dtype=object holding str
    | StackedColumn(shape: seq<nat>, entries: seq<Value>)  // np.stack of arrays of one shape
    | ObjectColumn(objects: seq<Value>)                    // dtype=object, one cell per value

  /** The values a column holds, one per record, as the records held them. */
  function Entries(c: Column): (vs: seq<Value>)
    ensures |vs| == match c
      case IntColumn(ints) => |ints|
      case FloatColumn(numbers) => |numbers|
      case StrColumn(strs) => |strs|
      case StackedColumn(_, entries) => |entries|
      case ObjectColumn(objects) => |objects|
  {
    match c
    case IntColumn(ints) => seq(|ints|, i requires 0 <= i < |ints| => IntV(ints[i]))
    case FloatColumn(numbers) => numbers
    case StrColumn(strs) => seq(|strs|, i requires 0 <= i < |strs| => StrV(strs[i]))
    case StackedColumn(_, entries) => entries
    case ObjectColumn(objects) => objects
  }

  // ----- `_stack_values` -----

  /** `np.asarray(v).shape`, or None when numpy (1.24 and later) refuses a
      ragged nesting with ValueError. Scalars, strings and dicts are 0-d. */
  function Shape(v: Value): Option<seq<nat>>
    decreases v
  {
    match v
    case ListV(items) =>
      if items == [] then Some([0])
      else if forall i :: 0 <= i < |items| ==> Shape(items[i]).Some? && Shape(items[i]) == Shape(items[0]) then
        Some([|items|] + Shape(items[0]).value)
      else None
    case ArrayV(rows) =>
      if rows == [] then Some([0])
      else if Rectangular(rows) then Some([|rows|, |rows[0]|])
      else None
    case _ => Some([])
  }

  /** `isinstance(v, int)` for every value. */
  predicate AllInts(values: seq<Value>) {
    forall i :: 0 <= i < |values| ==> values[i].IntV?
  }

  /** `isinstance(v, (int, float))` for every value. */
  predicate AllNumbers(values: seq<Value>) {
    forall i :: 0 <= i < |values| ==> values[i].IntV? || values[i].FloatV?
  }

  /** `isinstance(v, str)` for every value. */
  predicate AllStrs(values: seq<Value>) {
    forall i :: 0 <= i < |values| ==> values[i].StrV?
  }

  /** Some value has no array shape: `np.asarray` raises on it. */
  predicate SomeRagged(values: seq<Value>) {
    exists i :: 0 <= i < |values| && Shape(values[i]).None?
  }

  /** Every value has the array shape of the first. */
  predicate SameShape(values: seq<Value>)
    requires values != []
  {
    forall i :: 0 <= i < |values| ==> Shape(values[i]) == Shape(values[0])
  }

  // ----- `np.array(values, dtype=object)` -----

  /** `len(v) == n` for a list, or for an ndarray with `n` rows. */
  predicate HasLength(v: Value, n: nat) {
    (v.ListV? && |v.items| == n) || (v.ArrayV? && |v.rows| == n)
  }

  /** Every element of the list, or every row of the ndarray, has length `m`. */
  predicate ElementsHaveLength(v: Value, m: nat) {
    match v
    case ListV(items) => forall j :: 0 <= j < |items| ==> HasLength(items[j], m)
    case ArrayV(rows) => forall j :: 0 <= j < |rows| ==> |rows[j]| == m
    case _ => false
  }

  /** `np.array(values, dtype=object)` raises ValueError. numpy gives the
      object array the deepest shape on which the nesting agrees and then
      copies each value into its place; an ndarray is copied element by
      element, so its shape must fit. It does not fit exactly when some value
      is an ndarray of `n` rows, every value is a sequence of length `n` (so
      the shape reaches one level down), and the elements one level further
      are not all sequences of one length (so the shape stops there): the
      ndarray's `n` by `m` does not go into the `n` cells of its place. */
  predicate ObjectArrayRaises(values: seq<Value>) {
    exists a :: 0 <= a < |values| && values[a].ArrayV? && values[a].rows != [] &&
      (forall i :: 0 <= i < |values| ==> HasLength(values[i], |values[a].rows|)) &&
      !(forall i :: 0 <= i < |values| ==> ElementsHaveLength(values[i], |values[a].rows[0]|))
  }

  /** `np.array(values, dtype=object)`, or None when it raises. */
  function ObjectArray(values: seq<Value>): Option<Column> {
    if ObjectArrayRaises(values) then None else Some(ObjectColumn(values))
  }

  function IntsOf(values: seq<Value>): (ints: seq<int>)
    requires AllInts(values)
    ensures |ints| == |values|
  {
    seq(|values|, i requires 0 <= i < |values| && AllInts(values) => values[i].i)
  }

  function StrsOf(values: seq<Value>): (strs: seq<string>)
    requires AllStrs(values)
    ensures |strs| == |values|
  {
    seq(|values|, i requires 0 <= i < |values| && AllStrs(values) => values[i].s)
  }

  /** What `_stack_values` returns, or None when it raises: IndexError on an
      empty list, ValueError from `np.asarray` on a ragged value, or from the
      final object array. */
  function StackValuesSpec(values: seq<Value>): Option<Column> {
    if values == [] then None
    else if AllInts(values) then Some(IntColumn(IntsOf(values)))
    else if AllNumbers(values) then Some(FloatColumn(values))
    else if AllStrs(values) then Some(StrColumn(StrsOf(values)))
    else if SomeRagged(values) then None
    else if SameShape(values) then Some(StackedColumn(Shape(values[0]).value, values))
    else ObjectArray(values)
  }

  /** A set holding one element holds nothing else. */
  lemma SingletonSet<T>(s: set<T>, a: T, b: T)
    requires |s| == 1 && a in s && b in s
    ensures a == b
  {
    if a != b {
      assert {a, b} <= s;
      assert |{a, b}| == 2;
      SubsetCard({a, b}, s);
    }
  }

  lemma {:induction false} SubsetCard<T>(a: set<T>, b: set<T>)
    requires a <= b
    ensures |a| <= |b|
    decreases |a|
  {
    if a != {} {
      var x :| x in a;
      SubsetCard(a - {x}, b - {x});
    }
  }

  /** The set of shapes `_stack_values` collects has one element exactly
      when every value has the shape of the first. */
  lemma OneShapeIffSame(values: seq<Value>, shapes: set<seq<nat>>)
    requires values != [] && !SomeRagged(values)
    requires forall s :: s in shapes <==> exists j :: 0 <= j < |values| && Shape(values[j]) == Some(s)
    ensures |shapes| == 1 <==> SameShape(values)
  {
    var first := Shape(values[0]).value;
    assert first in shapes;
    if SameShape(values) {
      assert shapes == {first};
    }
    if |shapes| == 1 {
      forall j | 0 <= j < |values| ensures Shape(values[j]) == Some(first) {
        SingletonSet(shapes, Shape(values[j]).value, first);
      }
    }
  }

  /** The loop of `_stack_values`: `np.asarray` of each value, in order,
      collecting the shapes; None when `np.asarray` raises. */
  method ConvertAll(values: seq<Value>) returns (converted: Option<seq<Value>>, shapes: set<seq<nat>>)
    ensures converted.None? <==> SomeRagged(values)
    ensures converted.Some? ==> converted.value == values
    ensures converted.Some? ==> forall s :: s in shapes <==> exists j :: 0 <= j < |values| && Shape(values[j]) == Some(s)
  {
    var arrays: seq<Value> := [];
    shapes := {};
    for i := 0 to |values|
      invariant arrays == values[..i]
      invariant forall j :: 0 <= j < i ==> Shape(values[j]).Some?
      invariant forall s :: s in shapes <==> exists j :: 0 <= j < i && Shape(values[j]) == Some(s)
    {
      var shape := Shape(values[i]);
      if shape.None? {
        return None, shapes;
      }
      arrays := arrays + [values[i]];
      shapes := shapes + {shape.value};
    }
    assert arrays == values;
    return Some(arrays), shapes;
  }

  /** `_stack_values`: the type checks in order, then the loop that converts
      each value with `np.asarray` and collects the shapes. */
  method StackValues(values: seq<Value>) returns (r: Option<Column>)
    ensures r == StackValuesSpec(values)
  {
    if |values| == 0 {
      return None;
    }
    if AllInts(values) {
      return Some(IntColumn(IntsOf(values)));
    }
    if AllNumbers(values) {
      return Some(FloatColumn(values));
    }
    if AllStrs(values) {
      return Some(StrColumn(StrsOf(values)));
    }
    var converted, shapes := ConvertAll(values);
    if converted.None? {
      return None;
    }
    OneShapeIffSame(values, shapes);
    if |shapes| == 1 {
      return Some(StackedColumn(Shape(values[0]).value, converted.value));
    }
    return ObjectArray(values);
  }

  // ----- Pivoting the records -----

  /** `aggregated.setdefault(key, []).append(value)`, skipping "key_map". */
  function AddEntry(acc: Dict<seq<Value>>, key: string, value: Value): (r: Dict<seq<Value>>)
    ensures acc.Valid() ==> r.Valid()
  {
    if key == KEY_MAP then acc else acc.Set(key, acc.Get(key, []) + [value])
  }

  /** The inner loop over `entry.items()`, for the keys `keys` of `rec`. */
  function AddFields(acc: Dict<seq<Value>>, rec: Record, keys: seq<string>): (r: Dict<seq<Value>>)
    requires forall k :: k in keys ==> k in rec.items
    ensures acc.Valid() ==> r.Valid()
  {
    if keys == [] then acc
    else
      var k := keys[|keys| - 1];
      AddEntry(AddFields(acc, rec, keys[..|keys| - 1]), k, rec.items[k])
  }

  /** Every record is a dict: its key list and its map agree. */
  ghost predicate AllValid(records: seq<Record>) {
    forall i :: 0 <= i < |records| ==> records[i].Valid()
  }

  /** `aggregated` after the outer loop has seen `records`. */
  function Gather(records: seq<Record>): (r: Dict<seq<Value>>)
    requires AllValid(records)
    ensures r.Valid()
  {
    if records == [] then Empty()
    else
      var rec := records[|records| - 1];
      AddFields(Gather(records[..|records| - 1]), rec, rec.keys)
  }

  /** Reference definition of a column: the value of `key` in every record
      that has it, in record order. */
  function ValuesFor(records: seq<Record>, key: string): seq<Value> {
    if records == [] then []
    else
      var rec := records[|records| - 1];
      ValuesFor(records[..|records| - 1], key) + (if key in rec.items then [rec.items[key]] else [])
  }

  /** `payload[key]` for the gathered values of `key`, or None when building
      it raises: the object array of the fallback raises like any other. */
  function ColumnFor(key: string, values: seq<Value>): Option<Column> {
    if key == RAW_BLOCK then ObjectArray(values)
    else
      match StackValuesSpec(values)
      case Some(c) => Some(c)
      case None => ObjectArray(values)
  }

  /** The loop over `aggregated.items()`, for its first keys `keys`, with
      `column` building each array; None once a column raises. */
  function ConvertWith(g: Dict<seq<Value>>, keys: seq<string>, column: (string, seq<Value>) -> Option<Column>): Option<Dict<Column>>
    requires forall k :: k in keys ==> k in g.items
  {
    if keys == [] then Some(Empty())
    else
      var k := keys[|keys| - 1];
      match ConvertWith(g, keys[..|keys| - 1], column)
      case None => None
      case Some(p) =>
        match column(k, g.items[k])
        case None => None
        case Some(c) => Some(p.Set(k, c))
  }

  /** The loop over `aggregated.items()` as the source runs it. */
  function Convert(g: Dict<seq<Value>>, keys: seq<string>): Option<Dict<Column>>
    requires forall k :: k in keys ==> k in g.items
  {
    ConvertWith(g, keys, ColumnFor)
  }

  /** `[record.get("key_map", {}) for record in records]`. */
  function KeyMaps(records: seq<Record>): (vs: seq<Value>)
    ensures |vs| == |records|
  {
    seq(|records|, i requires 0 <= i < |records| => records[i].Get(KEY_MAP, MapV(Empty())))
  }

  /** What `aggregate_cp_records` returns, or None when it raises. */
  function AggregateSpec(records: seq<Record>): Option<Dict<Column>>
    requires AllValid(records)
  {
    if records == [] then Some(Empty())
    else
      var g := Gather(records);
      match Convert(g, g.keys)
      case None => None
      case Some(p) =>
        match ObjectArray(KeyMaps(records))
        case None => None
        case Some(c) => Some(p.Set(KEY_MAP, c))
  }

  /** The inner loop of `aggregate_cp_records` over one record's fields. */
  method AddRecord(acc: Dict<seq<Value>>, entry: Record) returns (r: Dict<seq<Value>>)
    requires entry.Valid()
    ensures r == AddFields(acc, entry, entry.keys)
  {
    r := acc;
    for m := 0 to |entry.keys|
      invariant r == AddFields(acc, entry, entry.keys[..m])
    {
      assert entry.keys[..m + 1][..m] == entry.keys[..m];
      var key := entry.keys[m];
      if key != KEY_MAP {
        r := r.Set(key, r.Get(key, []) + [entry.items[key]]);
      }
    }
    assert entry.keys[..|entry.keys|] == entry.keys;
  }

  /** The first loop of `aggregate_cp_records`: `aggregated`. */
  method GatherRecords(records: seq<Record>) returns (aggregated: Dict<seq<Value>>)
    requires AllValid(records)
    ensures aggregated == Gather(records)
  {
    aggregated := Empty();
    for n := 0 to |records|
      invariant aggregated == Gather(records[..n])
    {
      assert records[..n + 1][..n] == records[..n];
      aggregated := AddRecord(aggregated, records[n]);
    }
    assert records[..|records|] == records;
  }

  /** The second loop of `aggregate_cp_records`: one array per gathered key,
      in key order; None as soon as one raises. */
  method ConvertColumns(aggregated: Dict<seq<Value>>) returns (payload: Option<Dict<Column>>)
    requires aggregated.Valid()
    ensures payload == Convert(aggregated, aggregated.keys)
  {
    var acc := Empty();
    var keys := aggregated.keys;
    for m := 0 to |keys|
      invariant Convert(aggregated, keys[..m]) == Some(acc)
    {
      var key := keys[m];
      var column := ColumnOf(key, aggregated.items[key]);
      if column.None? {
        ConvertEffect(aggregated, keys);
        return None;
      }
      ConvertNext(aggregated, keys, m, acc, column.value);
      acc := acc.Set(key, column.value);
    }
    assert keys[..|keys|] == keys;
    return Some(acc);
  }

  lemma ConvertNext(g: Dict<seq<Value>>, keys: seq<string>, m: nat, p: Dict<Column>, c: Column)
    requires forall k :: k in keys ==> k in g.items
    requires m < |keys|
    requires forall k :: k in keys[..m] ==> k in g.items
    requires Convert(g, keys[..m]) == Some(p) && ColumnFor(keys[m], g.items[keys[m]]) == Some(c)
    ensures forall k :: k in keys[..m + 1] ==> k in g.items
    ensures Convert(g, keys[..m + 1]) == Some(p.Set(keys[m], c))
  {
    assert keys[..m + 1][..m] == keys[..m];
  }

  /** The body of the second loop: the raw block is an object array; any
      other key is stacked, or made an object array when stacking fails. */
  method ColumnOf(key: string, values: seq<Value>) returns (column: Option<Column>)
    ensures column == ColumnFor(key, values)
  {
    if key == RAW_BLOCK {
      return ObjectArray(values);
    }
    column := StackValues(values);
    if column.None? {
      column := ObjectArray(values);
    }
  }

  /** `aggregate_cp_records`. */
  method AggregateCpRecords(records: seq<Record>) returns (payload: Option<Dict<Column>>)
    requires AllValid(records)
    ensures payload == AggregateSpec(records)
  {
    if |records| == 0 {
      return Some(Empty());
    }
    var aggregated := GatherRecords(records);
    var converted := ConvertColumns(aggregated);
    if converted.None? {
      return None;
    }
    var keyMaps := ObjectArray(KeyMaps(records));
    if keyMaps.None? {
      return None;
    }
    return Some(converted.value.Set(KEY_MAP, keyMaps.value));
  }

  // ----- Properties of `_stack_values` -----

  /** `_stack_values` raises only on an empty list, or, among values that are
      neither all numbers nor all strings, on a ragged value or when the
      object array of values of different shapes raises; otherwise the
      array it builds holds exactly the given values, in order, and a
      stacked array has the shape every value shares. */
  lemma StackValuesKeepsValues(values: seq<Value>)
    ensures StackValuesSpec(values).None? <==>
      values == [] ||
      (!AllNumbers(values) && !AllStrs(values) &&
       (SomeRagged(values) || (!SameShape(values) && ObjectArrayRaises(values))))
    ensures StackValuesSpec(values).Some? ==> Entries(StackValuesSpec(values).value) == values
    ensures StackValuesSpec(values).Some? && StackValuesSpec(values).value.StackedColumn? ==>
      forall i :: 0 <= i < |values| ==> Shape(values[i]) == Some(StackValuesSpec(values).value.shape)
  {
    if values != [] {
      if AllInts(values) {
        assert Entries(IntColumn(IntsOf(values))) == values;
      } else if !AllNumbers(values) && AllStrs(values) {
        assert Entries(StrColumn(StrsOf(values))) == values;
      }
    }
  }

  /** The array chosen for a non-empty column, in the order the source tries
      them: `raw_block` is always an object array; then int when every value
      is an int, float when every value is a number, str when every value is
      a string, stacked when every value has one array shape, and an object
      array otherwise (also when `np.asarray` raises). Building that object
      array raises exactly when `ObjectArrayRaises` says so, and then so
      does the column. Whatever the type, the column holds exactly the given
      values. */
  lemma ColumnKinds(key: string, values: seq<Value>)
    requires values != []
    ensures ColumnFor(key, values).Some? ==> Entries(ColumnFor(key, values).value) == values
    ensures key == RAW_BLOCK ==>
      && (ColumnFor(key, values).None? <==> ObjectArrayRaises(values))
      && (ColumnFor(key, values).Some? ==> ColumnFor(key, values).value.ObjectColumn?)
    ensures key != RAW_BLOCK ==>
      var c := ColumnFor(key, values);
      && (c.Some? && c.value.IntColumn? <==> AllInts(values))
      && (c.Some? && c.value.FloatColumn? <==> AllNumbers(values) && !AllInts(values))
      && (c.Some? && c.value.StrColumn? <==> AllStrs(values))
      && (c.Some? && c.value.StackedColumn? <==>
            !AllNumbers(values) && !AllStrs(values) && !SomeRagged(values) && SameShape(values))
      && (c.Some? && c.value.ObjectColumn? <==>
            !AllNumbers(values) && !AllStrs(values) && (SomeRagged(values) || !SameShape(values))
            && !ObjectArrayRaises(values))
      && (c.None? <==>
            !AllNumbers(values) && !AllStrs(values) && (SomeRagged(values) || !SameShape(values))
            && ObjectArrayRaises(values))
  {
    StackValuesKeepsValues(values);
    if AllStrs(values) {
      assert !values[0].IntV? && !values[0].FloatV?;
    }
  }

  /** Two matrices with the same number of rows and different numbers of
      columns cannot share a column: the object array of them raises. */
  lemma MismatchedMatricesRaise(key: string, m1: seq<seq<string>>, m2: seq<seq<string>>)
    requires key != RAW_BLOCK
    requires |m1| == |m2| > 0 && Rectangular(m1) && Rectangular(m2) && |m1[0]| != |m2[0]|
    ensures ColumnFor(key, [ArrayV(m1), ArrayV(m2)]).None?
  {
    var values := [ArrayV(m1), ArrayV(m2)];
    assert values[0].ArrayV?;
    assert Shape(values[0]) != Shape(values[1]);
    assert !ElementsHaveLength(values[1], |m1[0]|) by {
      assert |m2[0]| != |m1[0]|;
    }
    assert ObjectArrayRaises(values) by {
      assert values[0].ArrayV? && values[0].rows != [];
      assert forall i :: 0 <= i < |values| ==> HasLength(values[i], |values[0].rows|);
    }
    ColumnKinds(key, values);
  }

  // ----- Properties of the pivot -----

  predicate Distinct(keys: seq<string>) {
    forall i, j :: 0 <= i < j < |keys| ==> keys[i] != keys[j]
  }

  lemma {:induction false} AddFieldsEffect(acc: Dict<seq<Value>>, rec: Record, keys: seq<string>)
    requires forall k :: k in keys ==> k in rec.items
    requires Distinct(keys)
    ensures forall k :: k in AddFields(acc, rec, keys).items <==> k in acc.items || (k in keys && k != KEY_MAP)
    ensures forall k :: (AddFields(acc, rec, keys).Get(k, []) ==
      acc.Get(k, []) + (if k in keys && k != KEY_MAP then [rec.items[k]] else []))
  {
    if keys != [] {
      var prefix := keys[..|keys| - 1];
      var last := keys[|keys| - 1];
      assert last !in prefix;
      assert forall k :: k in keys <==> k in prefix || k == last;
      AddFieldsEffect(acc, rec, prefix);
    }
  }

  /** A key has a value in some record exactly when its reference column is
      non-empty. */
  lemma {:induction false} ValuesForNonEmpty(records: seq<Record>, key: string)
    ensures ValuesFor(records, key) != [] <==> exists i :: 0 <= i < |records| && key in records[i].items
    ensures |ValuesFor(records, key)| <= |records|
  {
    if records != [] {
      var prefix := records[..|records| - 1];
      ValuesForNonEmpty(prefix, key);
      if exists i :: 0 <= i < |prefix| && key in prefix[i].items {
        var i :| 0 <= i < |prefix| && key in prefix[i].items;
        assert records[i] == prefix[i];
      }
      if exists i :: 0 <= i < |records| && key in records[i].items {
        var i :| 0 <= i < |records| && key in records[i].items;
        if i < |prefix| {
          assert prefix[i] == records[i];
        }
      }
    }
  }

  /** A key every record has gets one value per record. */
  lemma {:induction false} ValuesForEveryRecord(records: seq<Record>, key: string)
    requires forall i :: 0 <= i < |records| ==> key in records[i].items
    ensures |ValuesFor(records, key)| == |records|
    ensures forall i :: 0 <= i < |records| ==> ValuesFor(records, key)[i] == records[i].items[key]
  {
    if records != [] {
      var prefix := records[..|records| - 1];
      ValuesForEveryRecord(prefix, key);
    }
  }

  /** After the outer loop, every key other than "key_map" that some record
      has is gathered, with the values of exactly the records holding it,
      in record order; nothing else is gathered. */
  lemma {:induction false} GatherColumns(records: seq<Record>)
    requires AllValid(records)
    ensures forall k :: k in Gather(records).items <==> k != KEY_MAP && ValuesFor(records, k) != []
    ensures forall k :: Gather(records).Get(k, []) == (if k == KEY_MAP then [] else ValuesFor(records, k))
  {
    if records != [] {
      var prefix := records[..|records| - 1];
      var rec := records[|records| - 1];
      assert AllValid(prefix);
      GatherColumns(prefix);
      assert Distinct(rec.keys);
      AddFieldsEffect(Gather(prefix), rec, rec.keys);
    }
  }

  /** Building the columns of `keys` raises exactly when one of them does;
      otherwise every key gets its column, in key order. */
  lemma ConvertEffect(g: Dict<seq<Value>>, keys: seq<string>)
    requires forall k :: k in keys ==> k in g.items
    requires Distinct(keys)
    ensures Convert(g, keys).Some? <==> forall k :: k in keys ==> ColumnFor(k, g.items[k]).Some?
    ensures Convert(g, keys).Some? ==>
      && Convert(g, keys).value.Valid() && Convert(g, keys).value.keys == keys
      && forall k :: k in keys ==> ColumnFor(k, g.items[k]) == Some(Convert(g, keys).value.items[k])
  {
    ConvertWithEffect(g, keys, ColumnFor);
  }

  lemma {:induction false} ConvertWithEffect(g: Dict<seq<Value>>, keys: seq<string>, column: (string, seq<Value>) -> Option<Column>)
    requires forall k :: k in keys ==> k in g.items
    requires Distinct(keys)
    ensures ConvertWith(g, keys, column).Some? <==> forall k :: k in keys ==> column(k, g.items[k]).Some?
    ensures ConvertWith(g, keys, column).Some? ==>
      && ConvertWith(g, keys, column).value.Valid() && ConvertWith(g, keys, column).value.keys == keys
      && forall k :: k in keys ==> column(k, g.items[k]) == Some(ConvertWith(g, keys, column).value.items[k])
  {
    if keys != [] {
      var prefix := keys[..|keys| - 1];
      var last := keys[|keys| - 1];
      assert last !in prefix;
      assert forall k :: k in keys <==> k in prefix || k == last;
      ConvertWithEffect(g, prefix, column);
    }
  }

  /** The outer structure of the result: it raises exactly when a gathered
      column or the key-map column does; otherwise "key_map" comes after the
      gathered keys. */
  lemma AggregateShape(records: seq<Record>)
    requires AllValid(records) && records != []
    ensures AggregateSpec(records).Some? <==>
      (forall k :: k in Gather(records).keys ==> ColumnFor(k, Gather(records).items[k]).Some?)
      && !ObjectArrayRaises(KeyMaps(records))
    ensures AggregateSpec(records).Some? ==>
      var p := AggregateSpec(records).value;
      && p.Valid()
      && p.keys == Gather(records).keys + [KEY_MAP]
      && KEY_MAP in p.items
      && p.items[KEY_MAP] == ObjectColumn(KeyMaps(records))
  {
    var g := Gather(records);
    GatherColumns(records);
    ConvertEffect(g, g.keys);
    assert KEY_MAP !in g.keys;
    AggregateSplit(records);
  }

  lemma AggregateSplit(records: seq<Record>)
    requires AllValid(records) && records != []
    ensures var g := Gather(records);
      && (AggregateSpec(records).Some? <==> Convert(g, g.keys).Some? && ObjectArray(KeyMaps(records)).Some?)
      && (AggregateSpec(records).Some? ==>
            AggregateSpec(records).value == Convert(g, g.keys).value.Set(KEY_MAP, ObjectColumn(KeyMaps(records))))
  {
  }

  /** The column of one key other than "key_map": when its values raise, the
      whole aggregation does; otherwise the key is present exactly when some
      record has it, with the column of its values. */
  lemma AggregateAt(records: seq<Record>, key: string)
    requires AllValid(records) && records != [] && key != KEY_MAP
    ensures ValuesFor(records, key) != [] && ColumnFor(key, ValuesFor(records, key)).None? ==>
      AggregateSpec(records).None?
    ensures AggregateSpec(records).Some? ==>
      var p := AggregateSpec(records).value;
      && (key in p.items <==> ValuesFor(records, key) != [])
      && (key in p.items ==> ColumnFor(key, ValuesFor(records, key)) == Some(p.items[key]))
  {
    var g := Gather(records);
    GatherColumns(records);
    ConvertEffect(g, g.keys);
    AggregateShape(records);
    assert g.Get(key, []) == ValuesFor(records, key);
  }

  /** `aggregate_cp_records`: an empty input gives an empty dict. Otherwise
      it raises exactly when the column of some key some record has raises,
      or the key-map column does; when it does not, "key_map" comes last and
      holds each record's key map (an empty map when it has none), one per
      record; every other key some record has gets a column holding, in
      record order, the values of exactly the records that have it, as the
      array `ColumnFor` chooses; no other key appears. */
  lemma AggregateColumns(records: seq<Record>)
    requires AllValid(records)
    ensures records == [] ==> AggregateSpec(records) == Some(Empty())
    ensures records != [] ==>
      (AggregateSpec(records).None? <==>
        (exists k :: k != KEY_MAP && ValuesFor(records, k) != [] && ColumnFor(k, ValuesFor(records, k)).None?)
        || ObjectArrayRaises(KeyMaps(records)))
    ensures records != [] && AggregateSpec(records).Some? ==>
      var p := AggregateSpec(records).value;
      && p.Valid()
      && p.keys == Gather(records).keys + [KEY_MAP]
      && KEY_MAP in p.items
      && p.items[KEY_MAP] == ObjectColumn(KeyMaps(records))
      && (forall i :: 0 <= i < |records| ==>
            KeyMaps(records)[i] == (if KEY_MAP in records[i].items then records[i].items[KEY_MAP] else MapV(Empty())))
      && (forall k :: k != KEY_MAP ==> (k in p.items <==> exists i :: 0 <= i < |records| && k in records[i].items))
      && (forall k :: k != KEY_MAP && k in p.items ==>
            ColumnFor(k, ValuesFor(records, k)) == Some(p.items[k]) && Entries(p.items[k]) == ValuesFor(records, k))
  {
    if records != [] {
      AggregateRaises(records);
      if AggregateSpec(records).Some? {
        AggregateShape(records);
        AggregateContent(records);
      }
    }
  }

  /** When the aggregation raises, and why. */
  lemma AggregateRaises(records: seq<Record>)
    requires AllValid(records) && records != []
    ensures AggregateSpec(records).None? <==>
      (exists k :: k != KEY_MAP && ValuesFor(records, k) != [] && ColumnFor(k, ValuesFor(records, k)).None?)
      || ObjectArrayRaises(KeyMaps(records))
  {
    AggregateShape(records);
    var g := Gather(records);
    if AggregateSpec(records).None? && !ObjectArrayRaises(KeyMaps(records)) {
      GatherColumns(records);
      var k :| k in g.keys && ColumnFor(k, g.items[k]).None?;
      assert g.Get(k, []) == g.items[k];
      assert k != KEY_MAP && ValuesFor(records, k) == g.items[k];
    }
    if exists k :: k != KEY_MAP && ValuesFor(records, k) != [] && ColumnFor(k, ValuesFor(records, k)).None? {
      var k :| k != KEY_MAP && ValuesFor(records, k) != [] && ColumnFor(k, ValuesFor(records, k)).None?;
      AggregateAt(records, k);
    }
  }

  /** The columns of a successful aggregation, key by key. */
  lemma AggregateContent(records: seq<Record>)
    requires AllValid(records) && records != [] && AggregateSpec(records).Some?
    ensures var p := AggregateSpec(records).value;
      forall k :: k != KEY_MAP ==>
        && (k in p.items <==> exists i :: 0 <= i < |records| && k in records[i].items)
        && (k in p.items ==>
              ColumnFor(k, ValuesFor(records, k)) == Some(p.items[k]) && Entries(p.items[k]) == ValuesFor(records, k))
  {
    var p := AggregateSpec(records).value;
    forall k | k != KEY_MAP
      ensures k in p.items <==> exists i :: 0 <= i < |records| && k in records[i].items
      ensures k in p.items ==>
        ColumnFor(k, ValuesFor(records, k)) == Some(p.items[k]) && Entries(p.items[k]) == ValuesFor(records, k)
    {
      AggregateAt(records, k);
      ValuesForNonEmpty(records, k);
      if ValuesFor(records, k) != [] {
        ColumnKinds(k, ValuesFor(records, k));
      }
    }
  }

  /** Every value of a gathered column is the value some record holds for
      that key. */
  lemma {:induction false} ValuesForMember(records: seq<Record>, key: string, a: nat)
    requires a < |ValuesFor(records, key)|
    ensures exists i :: 0 <= i < |records| && key in records[i].items && records[i].items[key] == ValuesFor(records, key)[a]
  {
    var prefix := records[..|records| - 1];
    if a < |ValuesFor(prefix, key)| {
      ValuesForMember(prefix, key, a);
      var i :| 0 <= i < |prefix| && key in prefix[i].items && prefix[i].items[key] == ValuesFor(prefix, key)[a];
      assert records[i] == prefix[i];
    } else {
      assert records[|records| - 1].items[key] == ValuesFor(records, key)[a];
    }
  }

  /** Aggregation raises only because of a matrix: some record holds an
      ndarray under some key. */
  lemma AggregateRaisesOnlyOnMatrices(records: seq<Record>)
    requires AllValid(records)
    ensures AggregateSpec(records).None? ==>
      exists i, k :: 0 <= i < |records| && k in records[i].items && records[i].items[k].ArrayV?
  {
    AggregateColumns(records);
    if AggregateSpec(records).None? {
      if ObjectArrayRaises(KeyMaps(records)) {
        var a :| 0 <= a < |records| && KeyMaps(records)[a].ArrayV?;
        assert KEY_MAP in records[a].items;
      } else {
        var k :| k != KEY_MAP && ValuesFor(records, k) != [] && ColumnFor(k, ValuesFor(records, k)).None?;
        var vs := ValuesFor(records, k);
        ColumnKinds(k, vs);
        var a :| 0 <= a < |vs| && vs[a].ArrayV?;
        ValuesForMember(records, k, a);
      }
    }
  }

  /** On records shaped as `parse_cp_file` returns them (see
      `CpParser.ParsedRecordsWellFormed`), the aggregation raises exactly
      when the column of some key other than `raw_block` and "key_map"
      raises; when it does not, `cp_index`, `cp_type` and `raw_block` get
      one entry per record, `raw_block` as an object array of each record's
      raw text, and "key_map" holds each record's own provenance map. */
  lemma AggregateWellFormed(records: seq<Record>)
    requires records != [] && forall i :: 0 <= i < |records| ==> WellFormedRecord(records[i])
    ensures AllValid(records)
    ensures AggregateSpec(records).None? <==>
      exists k :: k != KEY_MAP && k != RAW_BLOCK && ValuesFor(records, k) != []
        && ColumnFor(k, ValuesFor(records, k)).None?
    ensures AggregateSpec(records).Some? ==>
      var p := AggregateSpec(records).value;
      && (forall k :: k in ["cp_index", "cp_type", RAW_BLOCK] ==> k in p.items && |Entries(p.items[k])| == |records|)
      && RAW_BLOCK in p.items && KEY_MAP in p.items
      && p.items[RAW_BLOCK].ObjectColumn? && |p.items[RAW_BLOCK].objects| == |records|
      && p.items[KEY_MAP].ObjectColumn? && |p.items[KEY_MAP].objects| == |records|
      && (forall i :: 0 <= i < |records| ==>
            && RAW_BLOCK in records[i].items && KEY_MAP in records[i].items
            && p.items[RAW_BLOCK].objects[i] == records[i].items[RAW_BLOCK]
            && p.items[KEY_MAP].objects[i] == records[i].items[KEY_MAP])
  {
    assert AllValid(records);
    WellFormedRaises(records);
    if AggregateSpec(records).Some? {
      WellFormedContent(records);
    }
  }

  /** The raw-block column and the key-map column of parsed records never
      raise: they hold strings and dicts, not matrices. */
  lemma RawAndKeyMapsPlaced(records: seq<Record>)
    requires records != [] && forall i :: 0 <= i < |records| ==> WellFormedRecord(records[i])
    ensures AllValid(records)
    ensures ColumnFor(RAW_BLOCK, ValuesFor(records, RAW_BLOCK)).Some?
    ensures !ObjectArrayRaises(KeyMaps(records))
  {
    RawBlocksPlaced(records);
    KeyMapsPlaced(records);
  }

  lemma RawBlocksPlaced(records: seq<Record>)
    requires records != [] && forall i :: 0 <= i < |records| ==> WellFormedRecord(records[i])
    ensures AllValid(records)
    ensures ColumnFor(RAW_BLOCK, ValuesFor(records, RAW_BLOCK)).Some?
  {
    assert AllValid(records);
    ValuesForEveryRecord(records, RAW_BLOCK);
    var raw := ValuesFor(records, RAW_BLOCK);
    forall i | 0 <= i < |raw|
      ensures !raw[i].ArrayV?
    {
      assert WellFormedRecord(records[i]);
    }
    NoMatrixPlaced(raw);
  }

  lemma KeyMapsPlaced(records: seq<Record>)
    requires forall i :: 0 <= i < |records| ==> WellFormedRecord(records[i])
    ensures !ObjectArrayRaises(KeyMaps(records))
  {
    var maps := KeyMaps(records);
    forall i | 0 <= i < |maps|
      ensures !maps[i].ArrayV?
    {
      assert WellFormedRecord(records[i]);
    }
    NoMatrixPlaced(maps);
  }

  /** Values without a matrix always fit an object array. */
  lemma NoMatrixPlaced(values: seq<Value>)
    requires forall i :: 0 <= i < |values| ==> !values[i].ArrayV?
    ensures !ObjectArrayRaises(values)
    ensures ObjectArray(values) == Some(ObjectColumn(values))
  {
  }


  lemma WellFormedRaises(records: seq<Record>)
    requires records != [] && forall i :: 0 <= i < |records| ==> WellFormedRecord(records[i])
    requires AllValid(records)
    ensures AggregateSpec(records).None? <==>
      exists k :: k != KEY_MAP && k != RAW_BLOCK && ValuesFor(records, k) != []
        && ColumnFor(k, ValuesFor(records, k)).None?
  {
    RawAndKeyMapsPlaced(records);
    AggregateRaises(records);
  }

  lemma WellFormedContent(records: seq<Record>)
    requires records != [] && forall i :: 0 <= i < |records| ==> WellFormedRecord(records[i])
    requires AllValid(records) && AggregateSpec(records).Some?
    ensures var p := AggregateSpec(records).value;
      && (forall k :: k in ["cp_index", "cp_type", RAW_BLOCK] ==> k in p.items && |Entries(p.items[k])| == |records|)
      && RAW_BLOCK in p.items && KEY_MAP in p.items
      && p.items[RAW_BLOCK].ObjectColumn? && |p.items[RAW_BLOCK].objects| == |records|
      && p.items[KEY_MAP].ObjectColumn? && |p.items[KEY_MAP].objects| == |records|
      && (forall i :: 0 <= i < |records| ==>
            && RAW_BLOCK in records[i].items && KEY_MAP in records[i].items
            && p.items[RAW_BLOCK].objects[i] == records[i].items[RAW_BLOCK]
            && p.items[KEY_MAP].objects[i] == records[i].items[KEY_MAP])
  {
    AggregateShape(records);
    var p := AggregateSpec(records).value;
    forall k | k in ["cp_index", "cp_type", RAW_BLOCK]
      ensures k in p.items && |Entries(p.items[k])| == |records|
    {
      EveryRecordColumn(records, k);
    }
    EveryRecordColumn(records, RAW_BLOCK);
    assert ObjectColumn(KeyMaps(records)).objects == KeyMaps(records);
  }


  /** A key every record has gets one value per record, in record order;
      when the aggregation does not raise, its column holds them. */
  lemma EveryRecordColumn(records: seq<Record>, key: string)
    requires AllValid(records) && records != [] && key != KEY_MAP
    requires forall i :: 0 <= i < |records| ==> key in records[i].items
    ensures |ValuesFor(records, key)| == |records|
    ensures forall i :: 0 <= i < |records| ==> ValuesFor(records, key)[i] == records[i].items[key]
    ensures AggregateSpec(records).Some? ==>
      var p := AggregateSpec(records).value;
      && key in p.items
      && Entries(p.items[key]) == ValuesFor(records, key)
      && (key == RAW_BLOCK ==> p.items[key].ObjectColumn? && p.items[key].objects == ValuesFor(records, key))
  {
    ValuesForEveryRecord(records, key);
    AggregateAt(records, key);
    ColumnKinds(key, ValuesFor(records, key));
  }
}
