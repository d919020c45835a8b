/**
 * The chart series builder of src/utils/fileProcessing.ts: rows of a decoded
 * file, an x column, a y column and an optional group column become the
 * labels and datasets the chart renderer draws.
 */
module FileProcessing {
  import opened Wrappers
  import opened Types
  import opened Coercions
  import opened JsStrings
  import opened JsArrays

  /** One entry the grouping loop pushes: `{ x: xValue, y: yValue }`. */
  datatype Point = Point(x: string, y: Number)

  /** Each record's `column` read and turned into text by `String`, in input order. */
  function Texts(js: Coercion, data: seq<Record>, column: string): seq<string>
  {
    seq(|data|, i requires 0 <= i < |data| => Text(js, Get(data[i], column)))
  }

  /** The point a record contributes to its group. */
  function PointOf(js: Coercion, record: Record, xAxis: string, yAxis: string): Point
  {
    Point(Text(js, Get(record, xAxis)), ToNumber(js, Get(record, yAxis)))
  }

  /** The points pushed under group g, in input order. */
  function PointsOf(js: Coercion, data: seq<Record>, xAxis: string, yAxis: string, groupBy: string, g: string): seq<Point>
  {
    if data == [] then []
    else
      (if Text(js, Get(data[0], groupBy)) == g then [PointOf(js, data[0], xAxis, yAxis)] else [])
      + PointsOf(js, data[1..], xAxis, yAxis, groupBy, g)
  }

  /** One more record adds its point to its own group and to no other. */
  lemma {:induction false} PointsOfSnoc(js: Coercion, data: seq<Record>, record: Record, xAxis: string, yAxis: string, groupBy: string, g: string)
    ensures PointsOf(js, data + [record], xAxis, yAxis, groupBy, g)
         == PointsOf(js, data, xAxis, yAxis, groupBy, g)
            + (if Text(js, Get(record, groupBy)) == g then [PointOf(js, record, xAxis, yAxis)] else [])
  {
    if data != [] {
      assert (data + [record])[1..] == data[1..] + [record];
      PointsOfSnoc(js, data[1..], record, xAxis, yAxis, groupBy, g);
    }
  }

  /** The first point of a group whose x text is xText, if any. */
  function FindPoint(points: seq<Point>, xText: string): (r: Option<Point>)
    ensures r.Some? <==> exists i :: 0 <= i < |points| && points[i].x == xText
    ensures r.Some? ==> exists i :: 0 <= i < |points| && points[i] == r.value && r.value.x == xText
                          && forall j :: 0 <= j < i ==> points[j].x != xText
  {
    if points == [] then None
    else if points[0].x == xText then Some(points[0])
    else
      var rest := FindPoint(points[1..], xText);
      assert forall i :: 0 <= i < |points[1..]| ==> points[1..][i] == points[i + 1];
      rest
  }

  /** `found?.y`. */
  function YOf(found: Option<Point>): Option<Number>
  {
    if found.Some? then Some(found.value.y) else None
  }

  /** The record falls in group g and its x column reads as xText. */
  predicate InCell(js: Coercion, record: Record, xAxis: string, groupBy: string, g: string, xText: string)
  {
    Text(js, Get(record, groupBy)) == g && Text(js, Get(record, xAxis)) == xText
  }

  /**
   * The y, as a number, of the first record of group g whose x reads as xText,
   * scanning the records in input order; None when there is no such record.
   */
  function FirstY(js: Coercion, data: seq<Record>, xAxis: string, yAxis: string, groupBy: string, g: string, xText: string): (r: Option<Number>)
    ensures r.Some? <==> exists i :: 0 <= i < |data| && InCell(js, data[i], xAxis, groupBy, g, xText)
    ensures r.Some? ==> exists i :: 0 <= i < |data| && InCell(js, data[i], xAxis, groupBy, g, xText)
                          && r.value == ToNumber(js, Get(data[i], yAxis))
                          && forall j :: 0 <= j < i ==> !InCell(js, data[j], xAxis, groupBy, g, xText)
  {
    if data == [] then None
    else if InCell(js, data[0], xAxis, groupBy, g, xText) then Some(ToNumber(js, Get(data[0], yAxis)))
    else
      var rest := FirstY(js, data[1..], xAxis, yAxis, groupBy, g, xText);
      assert forall i :: 0 <= i < |data[1..]| ==> data[1..][i] == data[i + 1];
      rest
  }

  /**
   * Looking a label up among a group's points finds the y of the first
   * record of that group at that label.
   */
  lemma {:induction false} FindPointInGroup(js: Coercion, data: seq<Record>, xAxis: string, yAxis: string, groupBy: string, g: string, xText: string)
    ensures YOf(FindPoint(PointsOf(js, data, xAxis, yAxis, groupBy, g), xText)) == FirstY(js, data, xAxis, yAxis, groupBy, g, xText)
  {
    if data != [] {
      FindPointInGroup(js, data[1..], xAxis, yAxis, groupBy, g, xText);
      var rest := PointsOf(js, data[1..], xAxis, yAxis, groupBy, g);
      if Text(js, Get(data[0], groupBy)) == g {
        var points := [PointOf(js, data[0], xAxis, yAxis)] + rest;
        assert points[1..] == rest;
      } else {
        assert PointsOf(js, data, xAxis, yAxis, groupBy, g) == rest;
      }
    }
  }

  /** `if (groupBy)`: a group column is used only when it is given and not empty. */
  predicate Grouped(groupBy: Option<string>)
  {
    groupBy.Some? && groupBy.value != ""
  }

  /** A group no record falls in has no points. */
  lemma {:induction false} PointsOfAbsent(js: Coercion, data: seq<Record>, xAxis: string, yAxis: string, groupBy: string, g: string)
    requires g !in Texts(js, data, groupBy)
    ensures PointsOf(js, data, xAxis, yAxis, groupBy, g) == []
  {
    if data != [] {
      assert Texts(js, data, groupBy)[0] != g;
      assert Texts(js, data[1..], groupBy) == Texts(js, data, groupBy)[1..];
      PointsOfAbsent(js, data[1..], xAxis, yAxis, groupBy, g);
    }
  }

  /** A group text not yet among the Map's keys has collected no points. */
  lemma NewGroupIsEmpty(js: Coercion, seen: seq<Record>, xAxis: string, yAxis: string, groupBy: string, order: seq<string>, g: string)
    requires order == Dedup(Texts(js, seen, groupBy))
    requires g !in order
    ensures PointsOf(js, seen, xAxis, yAxis, groupBy, g) == []
  {
    DedupSpec(Texts(js, seen, groupBy));
    PointsOfAbsent(js, seen, xAxis, yAxis, groupBy, g);
  }

  /** The Map's keys, in insertion order, grow as `[...new Set(...)]` does. */
  lemma GroupOrderStep(js: Coercion, seen: seq<Record>, record: Record, groupBy: string, order: seq<string>, keys: set<string>)
    requires order == Dedup(Texts(js, seen, groupBy))
    requires forall g :: g in keys ==> g in order
    requires forall g :: g in order ==> g in keys
    ensures var g := Text(js, Get(record, groupBy));
            Dedup(Texts(js, seen + [record], groupBy)) == if g in keys then order else order + [g]
  {
    var g := Text(js, Get(record, groupBy));
    var texts := Texts(js, seen, groupBy);
    assert Texts(js, seen + [record], groupBy) == texts + [g];
    DedupSpec(texts);
    DedupLast(texts, g);
  }

  /**
   * The `forEach` callback of the grouped branch on one record: its group text joins the
   * Map's keys if it is new, and the record's point is pushed onto its
   * group's list. `order` lists the Map's keys in insertion order.
   */
  method AddPoint(js: Coercion, seen: seq<Record>, record: Record, xAxis: string, yAxis: string, groupBy: string,
                  order: seq<string>, groups: map<string, seq<Point>>)
    returns (order': seq<string>, groups': map<string, seq<Point>>)
    requires order == Dedup(Texts(js, seen, groupBy))
    requires forall g :: g in groups ==> g in order
    requires forall g :: g in order ==> g in groups
    requires forall g :: g in groups ==> groups[g] == PointsOf(js, seen, xAxis, yAxis, groupBy, g)
    ensures order' == Dedup(Texts(js, seen + [record], groupBy))
    ensures forall g :: g in groups' ==> g in order'
    ensures forall g :: g in order' ==> g in groups'
    ensures forall g :: g in groups' ==> groups'[g] == PointsOf(js, seen + [record], xAxis, yAxis, groupBy, g)
  {
    var groupValue := Text(js, Get(record, groupBy));
    var point := PointOf(js, record, xAxis, yAxis);
    GroupOrderStep(js, seen, record, groupBy, order, groups.Keys);
    order', groups' := order, groups;
    if groupValue !in groups' {
      NewGroupIsEmpty(js, seen, xAxis, yAxis, groupBy, order, groupValue);
      groups' := groups'[groupValue := []];
      order' := order' + [groupValue];
    }
    forall g | g in groups'
      ensures PointsOf(js, seen + [record], xAxis, yAxis, groupBy, g)
           == PointsOf(js, seen, xAxis, yAxis, groupBy, g) + (if groupValue == g then [point] else [])
    {
      PointsOfSnoc(js, seen, record, xAxis, yAxis, groupBy, g);
    }
    groups' := groups'[groupValue := groups'[groupValue] + [point]];
  }

  /** The prefix one longer is the prefix with the next element appended. */
  lemma PrefixSnoc<T>(s: seq<T>, i: nat)
    requires i < |s|
    ensures s[..i + 1] == s[..i] + [s[i]]
  {
  }

  /**
   * The `forEach` of the grouped branch that fills the `groups` Map: after it, the
   * keys are the distinct group texts in first-encounter order and each key
   * holds its group's points in input order.
   */
  method GroupPoints(js: Coercion, data: seq<Record>, xAxis: string, yAxis: string, groupBy: string)
    returns (order: seq<string>, groups: map<string, seq<Point>>)
    ensures order == Dedup(Texts(js, data, groupBy))
    ensures forall g :: g in groups ==> g in order
    ensures forall g :: g in order ==> g in groups
    ensures forall g :: g in groups ==> groups[g] == PointsOf(js, data, xAxis, yAxis, groupBy, g)
  {
    order, groups := [], map[];
    var i := 0;
    while i < |data|
      invariant 0 <= i <= |data|
      invariant order == Dedup(Texts(js, data[..i], groupBy))
      invariant forall g :: g in groups ==> g in order
      invariant forall g :: g in order ==> g in groups
      invariant forall g :: g in groups ==> groups[g] == PointsOf(js, data[..i], xAxis, yAxis, groupBy, g)
    {
      order, groups := AddPoint(js, data[..i], data[i], xAxis, yAxis, groupBy, order, groups);
      PrefixSnoc(data, i);
      i := i + 1;
    }
    assert data[..|data|] == data;
  }

  /** The sort key of a string under the default comparator: the string itself. */
  function StringKey(s: string): Option<string>
  {
    Some(s)
  }

  /** The grouped labels: each record's x text, deduplicated by a `Set`, then sorted by the default `sort()`. */
  function GroupedLabels(js: Coercion, data: seq<Record>, xAxis: string): seq<string>
  {
    Sort(Dedup(Texts(js, data, xAxis)), StringKey)
  }

  /** The grouped labels are strictly ascending: sorted, with no duplicates. */
  lemma GroupedLabelsAscending(js: Coercion, data: seq<Record>, xAxis: string)
    ensures forall i, j :: 0 <= i < j < |GroupedLabels(js, data, xAxis)| ==>
      StrLt(GroupedLabels(js, data, xAxis)[i], GroupedLabels(js, data, xAxis)[j])
  {
    var texts := Texts(js, data, xAxis);
    DedupSpec(texts);
    SortSpec(Dedup(texts), StringKey);
  }

  /** A text is a grouped label exactly when some record's x column reads as that text. */
  lemma GroupedLabelsMembers(js: Coercion, data: seq<Record>, xAxis: string)
    ensures forall i :: 0 <= i < |data| ==> Text(js, Get(data[i], xAxis)) in GroupedLabels(js, data, xAxis)
    ensures forall xText :: xText in GroupedLabels(js, data, xAxis) ==>
      exists i :: 0 <= i < |data| && Text(js, Get(data[i], xAxis)) == xText
  {
    var texts := Texts(js, data, xAxis);
    var labels := GroupedLabels(js, data, xAxis);
    DedupSpec(texts);
    SortSpec(Dedup(texts), StringKey);
    forall i | 0 <= i < |data|
      ensures Text(js, Get(data[i], xAxis)) in labels
    {
      assert texts[i] in texts;
      assert texts[i] in multiset(Dedup(texts));
    }
    forall xText | xText in labels
      ensures exists i :: 0 <= i < |data| && Text(js, Get(data[i], xAxis)) == xText
    {
      assert xText in multiset(labels);
      assert xText in texts;
      var i :| 0 <= i < |texts| && texts[i] == xText;
    }
  }

  /** Within each group, the point found for a label carries the y of the group's first record at that label. */
  lemma GroupValues(js: Coercion, data: seq<Record>, xAxis: string, yAxis: string, groupBy: string,
                    order: seq<string>, groups: map<string, seq<Point>>, labels: seq<string>)
    requires forall g :: g in order ==> g in groups
    requires forall g :: g in groups ==> groups[g] == PointsOf(js, data, xAxis, yAxis, groupBy, g)
    ensures forall k, j :: 0 <= k < |order| && 0 <= j < |labels| ==>
      YOf(FindPoint(groups[order[k]], labels[j])) == FirstY(js, data, xAxis, yAxis, groupBy, order[k], labels[j])
  {
    forall k, j | 0 <= k < |order| && 0 <= j < |labels|
      ensures YOf(FindPoint(groups[order[k]], labels[j])) == FirstY(js, data, xAxis, yAxis, groupBy, order[k], labels[j])
    {
      FindPointInGroup(js, data, xAxis, yAxis, groupBy, order[k], labels[j]);
    }
  }

  /**
   * The grouped datasets: the Map's entries in key order, each mapped to a
   * dataset with one value per label, found among that group's points.
   */
  function GroupedDatasets(js: Coercion, data: seq<Record>, xAxis: string, yAxis: string, groupBy: string,
                           order: seq<string>, groups: map<string, seq<Point>>, labels: seq<string>, draw: nat -> Colour)
    : (datasets: seq<Dataset<string, Number>>)
    requires forall g :: g in order ==> g in groups
    requires forall g :: g in groups ==> groups[g] == PointsOf(js, data, xAxis, yAxis, groupBy, g)
    ensures |datasets| == |order|
    ensures forall k :: 0 <= k < |order| ==>
      && datasets[k].name == order[k]
      && |datasets[k].data| == |labels|
      && datasets[k].backgroundColor == Uniform(draw(2 * k))
      && datasets[k].borderColor == draw(2 * k + 1)
      && !datasets[k].fill
    // the value of group order[k] at label j is the y of the group's first record at that label, or 0
    ensures forall k, j :: 0 <= k < |order| && 0 <= j < |labels| ==>
      datasets[k].data[j] == NumberOrZero(FirstY(js, data, xAxis, yAxis, groupBy, order[k], labels[j]))
  {
    GroupValues(js, data, xAxis, yAxis, groupBy, order, groups, labels);
    seq(|order|, k requires 0 <= k < |order| =>
      Dataset(order[k],
              seq(|labels|, j requires 0 <= j < |labels| => NumberOrZero(YOf(FindPoint(groups[order[k]], labels[j])))),
              Uniform(draw(2 * k)), draw(2 * k + 1), false))
  }

  /** The ungrouped branch of `processDataForCharts`: one label and one number per record. */
  function UngroupedChart(js: Coercion, data: seq<Record>, xAxis: string, yAxis: string, draw: nat -> Colour)
    : ChartData<string, Number>
  {
    var labels := Texts(js, data, xAxis);
    ChartData(labels, [Dataset(yAxis,
                               seq(|data|, i requires 0 <= i < |data| => ToNumber(js, Get(data[i], yAxis))),
                               PerPoint(seq(|labels|, i requires 0 <= i < |labels| => draw(i))), draw(|labels|), false)])
  }

  /** The grouped branch of `processDataForCharts`. */
  method GroupedChart(js: Coercion, data: seq<Record>, xAxis: string, yAxis: string, groupBy: string, draw: nat -> Colour)
    returns (chart: ChartData<string, Number>)
    // labels strictly ascending
    ensures forall i, j :: 0 <= i < j < |chart.labels| ==> StrLt(chart.labels[i], chart.labels[j])
    // the labels are exactly the x texts of the records
    ensures forall i :: 0 <= i < |data| ==> Text(js, Get(data[i], xAxis)) in chart.labels
    ensures forall xText :: xText in chart.labels ==> exists i :: 0 <= i < |data| && Text(js, Get(data[i], xAxis)) == xText
    // one dataset per distinct group text, in first-encounter order
    ensures |chart.datasets| == |Dedup(Texts(js, data, groupBy))|
    ensures forall k :: 0 <= k < |chart.datasets| ==> chart.datasets[k].name == Dedup(Texts(js, data, groupBy))[k]
    // one value per label, two random colours, never filled
    ensures forall k :: 0 <= k < |chart.datasets| ==>
      && |chart.datasets[k].data| == |chart.labels|
      && chart.datasets[k].backgroundColor == Uniform(draw(2 * k))
      && chart.datasets[k].borderColor == draw(2 * k + 1)
      && !chart.datasets[k].fill
    // the value is the first matching record's y, or 0 when there is none or it is falsy
    ensures forall k, j :: 0 <= k < |chart.datasets| && 0 <= j < |chart.labels| ==>
      chart.datasets[k].data[j] == NumberOrZero(FirstY(js, data, xAxis, yAxis, groupBy, chart.datasets[k].name, chart.labels[j]))
  {
    var order, groups := GroupPoints(js, data, xAxis, yAxis, groupBy);
    var labels := GroupedLabels(js, data, xAxis);
    GroupedLabelsAscending(js, data, xAxis);
    GroupedLabelsMembers(js, data, xAxis);
    var datasets := GroupedDatasets(js, data, xAxis, yAxis, groupBy, order, groups, labels, draw);
    chart := ChartData(labels, datasets);
  }

  /**
   * `processDataForCharts(data, xAxis, yAxis, groupBy)`. `js` stands for the
   * engine's number conversions and `draw(k)` for the colour the k-th call
   * of `getRandomColor` returns.
   */
  method ProcessDataForCharts(js: Coercion, data: seq<Record>, xAxis: string, yAxis: string, groupBy: Option<string>, draw: nat -> Colour)
    returns (chart: ChartData<string, Number>)
    // no records: no labels and no datasets, in either mode
    ensures data == [] ==> chart.labels == [] && chart.datasets == []
    // every dataset is drawn unfilled
    ensures forall k :: 0 <= k < |chart.datasets| ==> !chart.datasets[k].fill
    // ungrouped: one label per record, in input order, duplicates kept
    ensures data != [] && !Grouped(groupBy) ==>
      |chart.labels| == |data| && forall i :: 0 <= i < |data| ==> chart.labels[i] == Text(js, Get(data[i], xAxis))
    // ungrouped: one dataset named after the y column with one number per record
    ensures data != [] && !Grouped(groupBy) ==>
      |chart.datasets| == 1 && chart.datasets[0].name == yAxis && |chart.datasets[0].data| == |data|
      && (forall i :: 0 <= i < |data| ==> chart.datasets[0].data[i] == ToNumber(js, Get(data[i], yAxis)))
    // ungrouped: one random fill colour per label, then one border colour
    ensures data != [] && !Grouped(groupBy) ==>
      chart.datasets[0].backgroundColor.PerPoint? && |chart.datasets[0].backgroundColor.colours| == |data|
      && (forall i :: 0 <= i < |data| ==> chart.datasets[0].backgroundColor.colours[i] == draw(i))
      && chart.datasets[0].borderColor == draw(|data|)
    // grouped: labels strictly ascending, and exactly the x texts of the records
    ensures data != [] && Grouped(groupBy) ==>
      && (forall i, j :: 0 <= i < j < |chart.labels| ==> StrLt(chart.labels[i], chart.labels[j]))
      && (forall i :: 0 <= i < |data| ==> Text(js, Get(data[i], xAxis)) in chart.labels)
      && (forall xText :: xText in chart.labels ==> exists i :: 0 <= i < |data| && Text(js, Get(data[i], xAxis)) == xText)
    // grouped: one dataset per distinct group text, in first-encounter order, one value per label
    ensures data != [] && Grouped(groupBy) ==>
      && |chart.datasets| == |Dedup(Texts(js, data, groupBy.value))|
      && (forall k :: 0 <= k < |chart.datasets| ==>
            chart.datasets[k].name == Dedup(Texts(js, data, groupBy.value))[k]
            && |chart.datasets[k].data| == |chart.labels|)
    // grouped: the value is the first matching record's y, or 0 when there is none or it is falsy
    ensures data != [] && Grouped(groupBy) ==>
      forall k, j :: 0 <= k < |chart.datasets| && 0 <= j < |chart.labels| ==>
        chart.datasets[k].data[j]
        == NumberOrZero(FirstY(js, data, xAxis, yAxis, groupBy.value, chart.datasets[k].name, chart.labels[j]))
  {
    if |data| == 0 {
      return ChartData([], []);
    }
    if Grouped(groupBy) {
      chart := GroupedChart(js, data, xAxis, yAxis, groupBy.value, draw);
    } else {
      chart := UngroupedChart(js, data, xAxis, yAxis, draw);
    }
  }

  /** The two readers `processFile` dispatches to. */
  datatype FileFormat = Csv | Excel

  const UnsupportedFormat := "Unsupported file format"

  /** The file name's extension as `processFile` takes it: the last piece of a split at dots, lower-cased. */
  function Extension(name: string): string
  {
    var pieces := Split(name, '.');
    LowerCase(pieces[|pieces| - 1])
  }

  /** The reader `processFile` picks for a file name, or the error it rejects with. */
  function FormatOf(name: string): Result<FileFormat, string>
  {
    var extension := Extension(name);
    if extension == "csv" then Ok(Csv)
    else if extension == "xlsx" || extension == "xls" then Ok(Excel)
    else Err(UnsupportedFormat)
  }

  /**
   * The format depends only on what follows the last dot, whatever the case
   * of its letters: `a.b.CSV` is read as CSV, `a.xls` and `a.XLSX` as
   * spreadsheets, and any other extension is rejected.
   */
  lemma FormatOfName(stem: string, extension: string)
    requires '.' !in extension
    ensures Extension(stem + "." + extension) == LowerCase(extension)
    ensures FormatOf(stem + "." + extension) == Ok(Csv) <==> LowerCase(extension) == "csv"
    ensures FormatOf(stem + "." + extension) == Ok(Excel) <==> LowerCase(extension) in {"xlsx", "xls"}
    ensures FormatOf(stem + "." + extension).Err? ==> FormatOf(stem + "." + extension).error == UnsupportedFormat
  {
    SplitLast(stem, '.', extension);
    SplitWithoutSeparator(extension, '.');
  }

  /**
   * A name without a dot is its own extension: "CSV" is read as CSV and
   * "report" is rejected.
   */
  lemma FormatOfBareName(name: string)
    requires '.' !in name
    ensures Extension(name) == LowerCase(name)
    ensures FormatOf(name) == Ok(Csv) <==> LowerCase(name) == "csv"
    ensures FormatOf(name) == Ok(Excel) <==> LowerCase(name) in {"xlsx", "xls"}
    ensures FormatOf(name).Err? ==> FormatOf(name).error == UnsupportedFormat
  {
    SplitWithoutSeparator(name, '.');
  }
}
