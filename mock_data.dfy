/**
 * The chart builder of src/utils/mockData.ts: the grouped reshaping of
 * src/utils/fileProcessing.ts fixed to the `category`, `date` and `value`
 * columns, working on the raw cell values rather than on their text.
 */
module MockData {
  import opened Wrappers
  import opened Types
  import opened Coercions
  import opened JsStrings
  import opened JsArrays

  const CategoryKey := "category"
  const DateKey := "date"
  const ValueKey := "value"

  /** The raw cell of column `key` in each record, in record order; None where the record lacks it. */
  function Column(data: seq<Record>, key: string): seq<Option<Value>>
  {
    seq(|data|, i requires 0 <= i < |data| => Get(data[i], key))
  }

  /** JavaScript strict equality: equal values, except that NaN equals nothing. */
  predicate StrictEquals(a: Option<Value>, b: Option<Value>)
  {
    a == b && a != Some(Num(NaN))
  }

  /** The default comparator's key: `undefined` sorts last, anything else by `String(x)`. */
  function SortKey(js: Coercion, x: Option<Value>): Option<string>
  {
    if x == None then None else Some(Text(js, x))
  }

  /** `SortKey` for one engine, as the function the sort is given. */
  function SortKeys(js: Coercion): Option<Value> -> Option<string>
  {
    x => SortKey(js, x)
  }

  /** The distinct raw `category` cells, in the order they first occur. */
  function Categories(data: seq<Record>): seq<Option<Value>>
  {
    Dedup(Column(data, CategoryKey))
  }

  /** The distinct raw `date` cells, sorted by the default array sort. */
  function Labels(js: Coercion, data: seq<Record>): seq<Option<Value>>
  {
    Sort(Dedup(Column(data, DateKey)), SortKeys(js))
  }

  /** A record belongs to a cell when both its category and its date are strictly equal to the cell's. */
  predicate Matches(record: Record, category: Option<Value>, date: Option<Value>)
  {
    StrictEquals(Get(record, CategoryKey), category) && StrictEquals(Get(record, DateKey), date)
  }

  /** The first record that belongs to the cell, if any. */
  function FindRecord(data: seq<Record>, category: Option<Value>, date: Option<Value>): (r: Option<Record>)
    ensures r.Some? <==> exists i :: 0 <= i < |data| && Matches(data[i], category, date)
    ensures r.Some? ==> exists i :: 0 <= i < |data| && data[i] == r.value && Matches(data[i], category, date)
                          && forall j :: 0 <= j < i ==> !Matches(data[j], category, date)
  {
    if data == [] then None
    else if Matches(data[0], category, date) then Some(data[0])
    else
      var rest := FindRecord(data[1..], category, date);
      assert forall i :: 0 <= i < |data[1..]| ==> data[1..][i] == data[i + 1];
      rest
  }

  /** The `value` of the first matching record, or 0 when there is none or the value is falsy. */
  function CellValue(data: seq<Record>, category: Option<Value>, date: Option<Value>): Value
  {
    var found := FindRecord(data, category, date);
    ValueOrZero(if found.Some? then Get(found.value, ValueKey) else None)
  }

  /** The mock chart builder; `draw(k)` is the colour the k-th call of the random colour generator returns. */
  function ProcessDataForCharts(js: Coercion, data: seq<Record>, draw: nat -> Colour): ChartData<Option<Value>, Value>
  {
    var categories := Categories(data);
    var labels := Labels(js, data);
    ChartData(labels,
      seq(|categories|, k requires 0 <= k < |categories| =>
        Dataset(categories[k],
                seq(|labels|, j requires 0 <= j < |labels| => CellValue(data, categories[k], labels[j])),
                Uniform(draw(2 * k)), draw(2 * k + 1), false)))
  }

  /**
   * One dataset per distinct `category` value, named after it, in the order
   * the values first occur; each has one value per label, two random
   * colours, and is not filled.
   */
  lemma MockCategories(js: Coercion, data: seq<Record>, draw: nat -> Colour)
    ensures var chart := ProcessDataForCharts(js, data, draw);
      && Distinct(Names(chart.datasets))
      && (forall i :: 0 <= i < |data| ==> Get(data[i], CategoryKey) in Names(chart.datasets))
      && (forall c :: c in Names(chart.datasets) ==> c in Column(data, CategoryKey))
      && (forall k, l :: 0 <= k < l < |chart.datasets| ==>
            FirstIndex(Column(data, CategoryKey), chart.datasets[k].name)
            < FirstIndex(Column(data, CategoryKey), chart.datasets[l].name))
      && (forall k :: 0 <= k < |chart.datasets| ==>
            && |chart.datasets[k].data| == |chart.labels|
            && chart.datasets[k].backgroundColor == Uniform(draw(2 * k))
            && chart.datasets[k].borderColor == draw(2 * k + 1)
            && !chart.datasets[k].fill)
  {
    var chart := ProcessDataForCharts(js, data, draw);
    var column := Column(data, CategoryKey);
    DedupSpec(column);
    assert Names(chart.datasets) == Categories(data);
    forall i | 0 <= i < |data|
      ensures Get(data[i], CategoryKey) in Names(chart.datasets)
    {
      assert column[i] in column;
    }
  }

  /** The names of a list of datasets. */
  function Names<L, V>(datasets: seq<Dataset<L, V>>): seq<L>
  {
    seq(|datasets|, k requires 0 <= k < |datasets| => datasets[k].name)
  }

  /**
   * The labels are the distinct `date` values, each once, in the default
   * sort order; two dates with the same text keep the order in which they
   * first occur in the data.
   */
  lemma MockLabels(js: Coercion, data: seq<Record>, draw: nat -> Colour)
    ensures var labels := ProcessDataForCharts(js, data, draw).labels;
      && Distinct(labels)
      && SortedBy(labels, SortKeys(js))
      && (forall i :: 0 <= i < |data| ==> Get(data[i], DateKey) in labels)
      && (forall d :: d in labels ==> d in Column(data, DateKey))
      && (forall i, j :: 0 <= i < j < |labels| && SortKey(js, labels[i]) == SortKey(js, labels[j]) ==>
            FirstIndex(Column(data, DateKey), labels[i]) < FirstIndex(Column(data, DateKey), labels[j]))
  {
    var labels := Labels(js, data);
    var column := Column(data, DateKey);
    DedupSpec(column);
    SortSpec(Dedup(column), SortKeys(js));
    LabelsFirstOccurrence(js, data);
    forall i | 0 <= i < |data|
      ensures Get(data[i], DateKey) in labels
    {
      assert column[i] in column;
      assert column[i] in multiset(Dedup(column));
    }
    forall d | d in labels
      ensures d in column
    {
      assert d in multiset(labels);
    }
  }

  /** Equal-keyed labels, stable in the deduplicated dates, are stable in the raw dates. */
  lemma LabelsFirstOccurrence(js: Coercion, data: seq<Record>)
    requires Distinct(Dedup(Column(data, DateKey)))
    requires forall i, j :: 0 <= i < j < |Dedup(Column(data, DateKey))| ==>
      FirstIndex(Column(data, DateKey), Dedup(Column(data, DateKey))[i]) < FirstIndex(Column(data, DateKey), Dedup(Column(data, DateKey))[j])
    requires multiset(Labels(js, data)) == multiset(Dedup(Column(data, DateKey)))
    requires forall i, j :: 0 <= i < j < |Labels(js, data)| && SortKeys(js)(Labels(js, data)[i]) == SortKeys(js)(Labels(js, data)[j]) ==>
      FirstIndex(Dedup(Column(data, DateKey)), Labels(js, data)[i]) < FirstIndex(Dedup(Column(data, DateKey)), Labels(js, data)[j])
    ensures forall i, j :: 0 <= i < j < |Labels(js, data)| && SortKey(js, Labels(js, data)[i]) == SortKey(js, Labels(js, data)[j]) ==>
      FirstIndex(Column(data, DateKey), Labels(js, data)[i]) < FirstIndex(Column(data, DateKey), Labels(js, data)[j])
  {
    var labels, column := Labels(js, data), Column(data, DateKey);
    var dates := Dedup(column);
    forall i, j | 0 <= i < j < |labels| && SortKey(js, labels[i]) == SortKey(js, labels[j])
      ensures FirstIndex(column, labels[i]) < FirstIndex(column, labels[j])
    {
      assert SortKeys(js)(labels[i]) == SortKeys(js)(labels[j]);
      assert labels[i] in multiset(labels) && labels[j] in multiset(labels);
      var a, b := FirstIndex(dates, labels[i]), FirstIndex(dates, labels[j]);
      assert a < b && dates[a] == labels[i] && dates[b] == labels[j];
    }
  }

  /** When every `date` is a string, the labels are strictly ascending strings. */
  lemma MockLabelsAscending(js: Coercion, data: seq<Record>, draw: nat -> Colour)
    requires forall i :: 0 <= i < |data| ==> Get(data[i], DateKey).Some? && Get(data[i], DateKey).value.Str?
    ensures var labels := ProcessDataForCharts(js, data, draw).labels;
      && (forall i :: 0 <= i < |labels| ==> labels[i].Some? && labels[i].value.Str?)
      && (forall i, j :: 0 <= i < j < |labels| ==> StrLt(labels[i].value.s, labels[j].value.s))
  {
    var labels := Labels(js, data);
    MockLabels(js, data, draw);
    forall i | 0 <= i < |labels|
      ensures labels[i].Some? && labels[i].value.Str?
    {
      assert labels[i] in labels;
      var k :| 0 <= k < |data| && Column(data, DateKey)[k] == labels[i];
    }
  }

  /**
   * The value found for one category and one date: the `value` of the first
   * record with both (compared with `===`) unless it is missing or falsy;
   * otherwise 0.
   */
  lemma CellValueSpec(data: seq<Record>, category: Option<Value>, date: Option<Value>)
    ensures (forall i :: 0 <= i < |data| ==> !Matches(data[i], category, date)) ==>
              CellValue(data, category, date) == Num(Zero)
    ensures forall i :: 0 <= i < |data| && Matches(data[i], category, date)
                        && (forall h :: 0 <= h < i ==> !Matches(data[h], category, date))
                        ==> CellValue(data, category, date) == ValueOrZero(Get(data[i], ValueKey))
  {
    var found := FindRecord(data, category, date);
    if found.Some? {
      var i :| 0 <= i < |data| && data[i] == found.value && Matches(data[i], category, date)
               && forall h :: 0 <= h < i ==> !Matches(data[h], category, date);
      forall i' | 0 <= i' < |data| && Matches(data[i'], category, date)
                  && (forall h :: 0 <= h < i' ==> !Matches(data[h], category, date))
        ensures i' == i
      {
      }
    }
  }

  /**
   * The value for a category and a label in the chart is the value that
   * `CellValueSpec` characterises.
   */
  lemma MockValue(js: Coercion, data: seq<Record>, draw: nat -> Colour, k: nat, j: nat)
    requires k < |ProcessDataForCharts(js, data, draw).datasets|
    requires j < |ProcessDataForCharts(js, data, draw).labels|
    ensures var chart := ProcessDataForCharts(js, data, draw);
      var category, date := chart.datasets[k].name, chart.labels[j];
      && |chart.datasets[k].data| == |chart.labels|
      && ((forall i :: 0 <= i < |data| ==> !Matches(data[i], category, date)) ==> chart.datasets[k].data[j] == Num(Zero))
      && (forall i :: 0 <= i < |data| && Matches(data[i], category, date)
                      && (forall h :: 0 <= h < i ==> !Matches(data[h], category, date))
                      ==> chart.datasets[k].data[j] == ValueOrZero(Get(data[i], ValueKey)))
  {
    var chart := ProcessDataForCharts(js, data, draw);
    assert chart.datasets[k].data[j] == CellValue(data, chart.datasets[k].name, chart.labels[j]);
    CellValueSpec(data, chart.datasets[k].name, chart.labels[j]);
  }
}
