/**
 * The data model of the dashboard (src/types.ts): a tabular record, the axis
 * selection and the structure handed to the chart renderer.
 */
module Types {
  import opened Wrappers

  /** A JavaScript number. Only what the dashboard distinguishes is kept: NaN or a finite value. */
  datatype Number = NaN | Finite(value: real)

  /** A cell of a record: `string | number`. */
  datatype Value = Num(n: Number) | Str(s: string)

  /** No two entries of a record share a key, as in a JavaScript object. */
  predicate DistinctKeys(entries: seq<(string, Value)>)
  {
    forall i, j :: 0 <= i < j < |entries| ==> entries[i].0 != entries[j].0
  }

  /**
   * A `DataPoint`: the object's own properties in `Object.keys` order, each
   * with its value.
   */
  type Record = entries: seq<(string, Value)> | DistinctKeys(entries) witness []

  /** `record[key]` for an own property: the value stored under `key`, or None for `undefined`. */
  function Get(record: seq<(string, Value)>, key: string): (r: Option<Value>)
    ensures r.Some? <==> exists i :: 0 <= i < |record| && record[i].0 == key
    ensures r.Some? ==> exists i :: 0 <= i < |record| && record[i] == (key, r.value)
  {
    if record == [] then None
    else if record[0].0 == key then Some(record[0].1)
    else
      var rest := Get(record[1..], key);
      assert rest.Some? ==> exists i :: 1 <= i < |record| && record[i] == (key, rest.value) by {
        if rest.Some? {
          var i :| 0 <= i < |record[1..]| && record[1..][i] == (key, rest.value);
          assert record[i + 1] == (key, rest.value);
        }
      }
      rest
  }

  /** In a record, looking up the key of an entry yields that entry's value. */
  lemma {:induction false} GetEntry(record: Record, i: nat)
    requires i < |record|
    ensures Get(record, record[i].0) == Some(record[i].1)
  {
  }

  /** `Object.keys(record)`. */
  function Keys(record: Record): (r: seq<string>)
  {
    seq(|record|, i requires 0 <= i < |record| => record[i].0)
  }

  /** `Object.values(record)`. */
  function Values(record: Record): (r: seq<Value>)
  {
    seq(|record|, i requires 0 <= i < |record| => record[i].1)
  }

  /**
   * `ColumnSelection`. The declared field types are strings, but the
   * dashboard stores `undefined` when a dataset has fewer than two columns,
   * hence the options.
   */
  datatype ColumnSelection = ColumnSelection(xAxis: Option<string>, yAxis: Option<string>, groupBy: Option<string>)

  type Colour = string

  /** `backgroundColor`: one colour for a whole dataset, or one per data point. */
  datatype Background = Uniform(colour: Colour) | PerPoint(colours: seq<Colour>)

  /**
   * One entry of `ChartData.datasets`, with label type L and data type V;
   * `name` holds the entry's `label` field (`label` is a keyword here).
   */
  datatype Dataset<L, V> = Dataset(name: L, data: seq<V>, backgroundColor: Background, borderColor: Colour, fill: bool)

  /** `ChartData`: the label list and the named series. */
  datatype ChartData<L, V> = ChartData(labels: seq<L>, datasets: seq<Dataset<L, V>>)
}
