/**
 * The dashboard's own state and logic (src/App.tsx): the uploaded records,
 * the free-text filter over them, the column list and axis selection reset
 * for each new upload, and the CSV text of the export.
 */
module App {
  import opened Wrappers
  import opened Types
  import opened Coercions
  import opened JsStrings
  import opened FileProcessing

  /**
   * The search box keeps a record when the text of one of its values,
   * lower-cased, contains the lower-cased filter.
   */
  predicate Matches(js: Coercion, record: Record, filter: string)
  {
    exists v :: v in Values(record) && Includes(LowerCase(Text(js, Some(v))), LowerCase(filter))
  }

  /** The records that match the filter, in their order. */
  function Filter(js: Coercion, data: seq<Record>, filter: string): seq<Record>
  {
    if data == [] then []
    else if Matches(js, data[0], filter) then [data[0]] + Filter(js, data[1..], filter)
    else Filter(js, data[1..], filter)
  }

  /** s is t with some elements left out, the rest in their order. */
  predicate IsSubsequence<T(==)>(s: seq<T>, t: seq<T>)
    decreases |t|
  {
    s == [] || (t != [] && ((s[0] == t[0] && IsSubsequence(s[1..], t[1..])) || IsSubsequence(s, t[1..])))
  }

  /**
   * The filtered records are the input records in their order, each record
   * that matches kept as often as it occurs and each that does not dropped.
   */
  lemma {:induction false} FilterSpec(js: Coercion, data: seq<Record>, filter: string)
    ensures IsSubsequence(Filter(js, data, filter), data)
    ensures forall r :: Matches(js, r, filter) ==> multiset(Filter(js, data, filter))[r] == multiset(data)[r]
    ensures forall r :: !Matches(js, r, filter) ==> multiset(Filter(js, data, filter))[r] == 0
    ensures forall r :: r in Filter(js, data, filter) ==> r in data && Matches(js, r, filter)
    ensures forall r :: r in data && Matches(js, r, filter) ==> r in Filter(js, data, filter)
  {
    if data != [] {
      FilterSpec(js, data[1..], filter);
      assert data == [data[0]] + data[1..];
      if Matches(js, data[0], filter) {
        assert Filter(js, data, filter)[1..] == Filter(js, data[1..], filter);
      }
    }
  }

  /**
   * The empty filter matches exactly the records with at least one property;
   * so it keeps every record unless some record has none.
   */
  lemma FilterEmpty(js: Coercion, data: seq<Record>)
    ensures forall r: Record :: Matches(js, r, "") <==> |r| > 0
    ensures (forall i :: 0 <= i < |data| ==> |data[i]| > 0) ==> Filter(js, data, "") == data
  {
    forall r: Record
      ensures Matches(js, r, "") <==> |r| > 0
    {
      if |r| > 0 {
        assert LowerCase("") == "";
        assert r[0].1 == Values(r)[0];
        IncludesEmpty(LowerCase(Text(js, Some(r[0].1))));
        assert Includes(LowerCase(Text(js, Some(r[0].1))), LowerCase(""));
      }
    }
    if forall i :: 0 <= i < |data| ==> |data[i]| > 0 {
      FilterKeepsAll(js, data, "");
    }
  }

  /** A filter every record matches keeps the input as it is. */
  lemma {:induction false} FilterKeepsAll(js: Coercion, data: seq<Record>, filter: string)
    requires forall i :: 0 <= i < |data| ==> Matches(js, data[i], filter)
    ensures Filter(js, data, filter) == data
  {
    if data != [] {
      FilterKeepsAll(js, data[1..], filter);
    }
  }

  /** Filtering the filtered records again changes nothing. */
  lemma {:induction false} FilterIdempotent(js: Coercion, data: seq<Record>, filter: string)
    ensures Filter(js, Filter(js, data, filter), filter) == Filter(js, data, filter)
  {
    FilterSpec(js, data, filter);
    FilterKeepsAll(js, Filter(js, data, filter), filter);
  }

  /** The filter ignores the case of its letters. */
  lemma {:induction false} FilterCaseInsensitive(js: Coercion, data: seq<Record>, filter: string)
    ensures Filter(js, data, LowerCase(filter)) == Filter(js, data, filter)
  {
    LowerCaseIdempotent(filter);
    if data != [] {
      FilterCaseInsensitive(js, data[1..], filter);
    }
  }

  const CsvPrefix := "data:text/csv;charset=utf-8,"

  /** `row[col]` as `join` renders it: nothing for a missing property. */
  function Cell(js: Coercion, row: Record, column: string): string
  {
    var v := Get(row, column);
    if v == None then "" else Text(js, v)
  }

  /** The text of each chosen column of one row, in column order. */
  function Cells(js: Coercion, row: Record, columns: seq<string>): seq<string>
  {
    seq(|columns|, k requires 0 <= k < |columns| => Cell(js, row, columns[k]))
  }

  /** One data line of the export. */
  function RowLine(js: Coercion, row: Record, columns: seq<string>): string
  {
    Join(Cells(js, row, columns), ",")
  }

  /** One data line per row. */
  function RowLines(js: Coercion, rows: seq<Record>, columns: seq<string>): seq<string>
  {
    seq(|rows|, i requires 0 <= i < |rows| => RowLine(js, rows[i], columns))
  }

  /** `csvContent`: the prefix, then the header line and one line per row. */
  function ExportText(js: Coercion, columns: seq<string>, rows: seq<Record>): string
  {
    CsvPrefix + ExportBody(js, columns, rows)
  }

  /** The header line, a line break, then the rows' lines joined by line breaks. */
  function ExportBody(js: Coercion, columns: seq<string>, rows: seq<Record>): string
  {
    Join(columns, ",") + "\n" + Join(RowLines(js, rows, columns), "\n")
  }

  /** A character in neither the pieces nor the separator is not in their join. */
  lemma {:induction false} JoinAvoids(xs: seq<string>, sep: string, c: char)
    requires c !in sep
    requires forall k :: 0 <= k < |xs| ==> c !in xs[k]
    ensures c !in Join(xs, sep)
  {
    if |xs| > 1 {
      JoinAvoids(xs[1..], sep, c);
    }
  }

  /** No column name and no rendered cell holds `c`. */
  predicate FreeOf(js: Coercion, columns: seq<string>, rows: seq<Record>, c: char)
  {
    && (forall k :: 0 <= k < |columns| ==> c !in columns[k])
    && (forall i, k :: 0 <= i < |rows| && 0 <= k < |columns| ==> c !in Cell(js, rows[i], columns[k]))
  }

  /**
   * After the prefix, the export splits at line breaks into the header and
   * the rows' lines; with no rows it ends in one empty line.
   */
  lemma ExportLines(js: Coercion, columns: seq<string>, rows: seq<Record>)
    requires FreeOf(js, columns, rows, '\n')
    ensures var csv := ExportText(js, columns, rows);
      && |CsvPrefix| <= |csv| && csv[..|CsvPrefix|] == CsvPrefix
      && Split(csv[|CsvPrefix|..], '\n')
         == [Join(columns, ",")] + (if rows == [] then [""] else RowLines(js, rows, columns))
  {
    var body := ExportBody(js, columns, rows);
    assert (CsvPrefix + body)[|CsvPrefix|..] == body;
    assert (CsvPrefix + body)[..|CsvPrefix|] == CsvPrefix;
    BodyLines(js, columns, rows);
  }

  /** `ExportLines` for the text after the prefix. */
  lemma BodyLines(js: Coercion, columns: seq<string>, rows: seq<Record>)
    requires FreeOf(js, columns, rows, '\n')
    ensures Split(ExportBody(js, columns, rows), '\n')
            == [Join(columns, ",")] + (if rows == [] then [""] else RowLines(js, rows, columns))
  {
    var header, lines := Join(columns, ","), RowLines(js, rows, columns);
    JoinAvoids(columns, ",", '\n');
    forall i | 0 <= i < |lines|
      ensures '\n' !in lines[i]
    {
      JoinAvoids(Cells(js, rows[i], columns), ",", '\n');
    }
    assert ExportBody(js, columns, rows) == header + ['\n'] + Join(lines, "\n");
    SplitAtSeparator(header, '\n', Join(lines, "\n"));
    if rows != [] {
      SplitJoin(lines, '\n');
    }
  }

  /** The header and every data line split at commas into the column names and the cells. */
  lemma ExportCells(js: Coercion, columns: seq<string>, rows: seq<Record>)
    requires columns != []
    requires FreeOf(js, columns, rows, ',')
    ensures Split(Join(columns, ","), ',') == columns
    ensures forall i :: 0 <= i < |rows| ==> Split(RowLine(js, rows[i], columns), ',') == Cells(js, rows[i], columns)
  {
    SplitJoin(columns, ',');
    forall i | 0 <= i < |rows|
      ensures Split(RowLine(js, rows[i], columns), ',') == Cells(js, rows[i], columns)
    {
      SplitJoin(Cells(js, rows[i], columns), ',');
    }
  }

  /**
   * The export reads back: line i + 1 holds the cells of row i under the
   * column named by field k of the header, when no name or cell holds a
   * comma or a line break.
   */
  lemma ExportRoundTrip(js: Coercion, columns: seq<string>, rows: seq<Record>)
    requires columns != [] && rows != []
    requires FreeOf(js, columns, rows, ',') && FreeOf(js, columns, rows, '\n')
    ensures var lines := Split(ExportText(js, columns, rows)[|CsvPrefix|..], '\n');
      && |lines| == |rows| + 1
      && Split(lines[0], ',') == columns
      && forall i, k :: 0 <= i < |rows| && 0 <= k < |columns| ==>
           |Split(lines[i + 1], ',')| == |columns| && Split(lines[i + 1], ',')[k] == Cell(js, rows[i], columns[k])
  {
    ExportLines(js, columns, rows);
    ExportCells(js, columns, rows);
    var lines := [Join(columns, ",")] + RowLines(js, rows, columns);
    forall i | 0 <= i < |rows|
      ensures Split(lines[i + 1], ',') == Cells(js, rows[i], columns)
    {
      assert lines[i + 1] == RowLine(js, rows[i], columns);
    }
  }

  /** `newColumns[i]`: None for `undefined` past the end. */
  function At(columns: seq<string>, i: nat): (r: Option<string>)
    ensures r.Some? <==> i < |columns|
    ensures r.Some? ==> r.value == columns[i]
  {
    if i < |columns| then Some(columns[i]) else None
  }

  /** The state of the `App` component that the dashboard's logic reads and writes. */
  class Dashboard {
    /** How this engine renders and parses numbers. */
    const js: Coercion
    var data: seq<Record>
    var filteredData: seq<Record>
    var filter: string
    var columns: seq<string>
    var columnSelection: ColumnSelection

    /**
     * What holds once the effects have run: the filtered records are the
     * current filter applied to the data, and a non-empty data set's columns
     * are its first record's keys.
     */
    predicate Valid()
      reads this
    {
      && filteredData == Filter(js, data, filter)
      && (data != [] ==> columns == Keys(data[0]))
    }

    /** The initial state: no records, an empty filter, empty axis names. */
    constructor(js: Coercion)
      ensures this.js == js
      ensures data == [] && filteredData == [] && filter == "" && columns == []
      ensures columnSelection == ColumnSelection(Some(""), Some(""), None)
      ensures Valid()
    {
      this.js := js;
      data := [];
      filteredData := [];
      filter := "";
      columns := [];
      columnSelection := ColumnSelection(Some(""), Some(""), None);
    }

    /**
     * The effect on `data`: a non-empty data set's first record gives the
     * columns, the first two of them the axes, and the grouping is dropped;
     * an empty data set changes nothing.
     */
    method ResetColumns()
      modifies this
      ensures data == old(data) && filteredData == old(filteredData) && filter == old(filter)
      ensures data != [] ==> columns == Keys(data[0]) && columnSelection == ColumnSelection(At(columns, 0), At(columns, 1), None)
      ensures data == [] ==> columns == old(columns) && columnSelection == old(columnSelection)
    {
      if |data| > 0 {
        var newColumns := Keys(data[0]);
        columns := newColumns;
        columnSelection := ColumnSelection(At(newColumns, 0), At(newColumns, 1), None);
      }
    }

    /** The effect on `filter` and `data`: the filtered records are recomputed. */
    method RecomputeFilter()
      modifies this
      ensures filteredData == Filter(js, data, filter)
      ensures data == old(data) && filter == old(filter) && columns == old(columns) && columnSelection == old(columnSelection)
    {
      filteredData := Filter(js, data, filter);
    }

    /** `onFilterChange`: a new filter, then its effect. */
    method SetFilter(newFilter: string)
      requires Valid()
      modifies this
      ensures Valid()
      ensures filter == newFilter && filteredData == Filter(js, data, newFilter)
      ensures data == old(data) && columns == old(columns) && columnSelection == old(columnSelection)
    {
      filter := newFilter;
      RecomputeFilter();
    }

    /** `onColumnSelect`: the selection is replaced as a whole. */
    method SelectColumns(selection: ColumnSelection)
      requires Valid()
      modifies this
      ensures Valid()
      ensures columnSelection == selection
      ensures data == old(data) && filteredData == old(filteredData) && filter == old(filter) && columns == old(columns)
    {
      columnSelection := selection;
    }

    /**
     * `handleFileUpload`: the file's extension picks a reader, `read` stands
     * for that reader's result; on any failure nothing changes, otherwise the
     * records replace the data and both effects run. The filter is kept, so
     * the filtered records end up filtered, not the whole upload.
     */
    method HandleFileUpload(name: string, read: FileFormat -> Result<seq<Record>, string>)
      requires Valid()
      modifies this
      ensures Valid()
      ensures FormatOf(name).Err? || read(FormatOf(name).value).Err? ==>
        data == old(data) && filteredData == old(filteredData) && filter == old(filter)
        && columns == old(columns) && columnSelection == old(columnSelection)
      ensures FormatOf(name).Ok? && read(FormatOf(name).value).Ok? ==>
        && data == read(FormatOf(name).value).value
        && filter == old(filter)
        && filteredData == Filter(js, data, filter)
        && (data != [] ==> columns == Keys(data[0]) && columnSelection == ColumnSelection(At(columns, 0), At(columns, 1), None))
        && (data == [] ==> columns == old(columns) && columnSelection == old(columnSelection))
    {
      var format := FormatOf(name);
      if format.Err? {
        return;
      }
      var processed := read(format.value);
      if processed.Err? {
        return;
      }
      data := processed.value;
      filteredData := processed.value;
      ResetColumns();
      RecomputeFilter();
    }

    /** `handleExport`: the CSV text of the filtered records under the current columns. */
    method Export() returns (csv: string)
      requires Valid()
      ensures csv == ExportText(js, columns, filteredData)
      ensures csv == ExportText(js, columns, Filter(js, data, filter))
    {
      csv := ExportText(js, columns, filteredData);
    }
  }
}
