# Data visualization dashboard — chart series builder and dashboard state

This project models the logic core of a React dashboard that lets a user
upload a CSV or Excel file, filter its rows by free text, pick the x, y and
optional group columns, draw the result as a chart and export the filtered
rows as CSV text. The model covers:

- `processDataForCharts` (src/utils/fileProcessing.ts). It turns records into
  chart labels and datasets. The ungrouped branch draws one point per record.
  The grouped branch fills a `Map` of groups in a loop, then builds sorted
  distinct labels and one dataset per group.
- The mock-data variant of `processDataForCharts` (src/utils/mockData.ts). It
  is fixed to the `category`, `date` and `value` columns and uses `===` on the
  raw values.
- The state of the `App` component (src/App.tsx), modelled as the class
  `App.Dashboard`. It holds:
  - the uploaded records, the filter text and the filtered records;
  - the column list and the axis selection.
  Its two effects, the upload handler and the export text are methods of the
  class. The filter predicate and the export text are functions, with lemmas
  about them.

Modules:

- `Wrappers`: `Option` and `Result`.
- `Types`: records, values, numbers, the selection and the chart structure.
- `Coercions`: `String(..)`, `Number(..)` and `x || 0`.
- `JsStrings`: `toLowerCase`, `includes`, `join`, `split` and the default
  string order.
- `JsArrays`: `[...new Set(..)]` and the default `sort()`.
- `FileProcessing`, `MockData` and `App`: one module per source file.

A record (`DataPoint`, src/types.ts:1-3) is a sequence of `(key, value)` pairs
with distinct keys, in `Object.keys` order. A value is `Num | Str`. A number is
`NaN` or a finite real. Reading a key the record does not have as an own
property gives `None`, which stands for `undefined`; properties inherited
from `Object.prototype` are not modelled (see "## Left out").

`String(..)` and `Number(..)` are known for strings, numbers and `undefined`.
Only number formatting and string-to-number parsing are floating-point
behaviour; they are supplied as the two functions of a `Coercion` value.

`getRandomColor` is modelled by a parameter `draw: nat -> Colour`, where
`draw(k)` is the colour returned by the k-th call. This keeps the order in
which the builders consume colours visible.

Behaviours of the code worth knowing:

- **Empty filter.** An empty filter keeps every record *that has at least one
  property*. A record with no properties has no value for `.some(..)` to
  succeed on, so it is dropped (`App.FilterEmpty`).
- **Zero fallback.** In grouped mode the value is also 0 when the first
  matching y is 0 or NaN, not only when nothing matches (`?.y || 0`).
- **Fewer than two columns.** The column reset then stores `undefined` for the
  missing axes. The grouping is always dropped, because the new selection
  object has no `groupBy`.
- **Empty upload.** An upload of zero records leaves the previous column list
  and selection in place.
- **Mock labels.** They are distinct as values but sorted by their text.
  Values with equal text (the number 5 and the string "5") therefore both
  appear, next to each other. When every `date` is a string, the labels are
  strictly ascending (`MockData.MockLabelsAscending`).

## Model

| member | source | states |
|---|---|---|
| Types.Get | src/utils/fileProcessing.ts:53-55 | `point[key]` is defined exactly when the record has an own entry with that key, and then it is that entry's value |
| Types.Keys | src/App.tsx:23 | `Object.keys`: the record's keys in order; ResetColumns states that they become the columns and the first two the axes |
| Types.Values | src/App.tsx:34 | `Object.values`: the record's values in order; FilterEmpty and FilterSpec state the filter built on them |
| Types.GetEntry | src/types.ts:1-3 | in a record (distinct keys), looking up the key of any entry gives that entry's value |
| Coercions.Text | src/utils/fileProcessing.ts:53-54 | `String(undefined)` is "undefined" and `String(s)` of a string is the string itself |
| Coercions.ToNumber | src/utils/fileProcessing.ts:55 | `Number(undefined)` is NaN and `Number(n)` of a number is the number itself |
| Coercions.NumberOrZero | src/utils/fileProcessing.ts:67 | the fallback of `found?.y` to 0 is never NaN; it is the found y unless that is missing, NaN or 0, and 0 in those cases |
| Coercions.ValueOrZero | src/utils/mockData.ts:31 | the fallback of `found?.value` to 0 is the found value unless it is missing, "", NaN or 0, and 0 in those cases |
| JsStrings.LowerCase | src/App.tsx:35 | `toLowerCase`; LowerCaseIdempotent and FilterCaseInsensitive state how the filter depends on it |
| JsStrings.Includes | src/App.tsx:35 | `includes`: some position where the filter occurs; IncludesEmpty and FilterEmpty state the empty-filter case |
| JsStrings.LowerCaseIdempotent | src/App.tsx:35 | lower-casing twice is lower-casing once |
| JsStrings.IncludesEmpty | src/App.tsx:35 | every string includes the empty string |
| JsStrings.Join | src/App.tsx:54-57 | joining no pieces gives the empty string and joining one piece gives that piece |
| JsStrings.Split | src/utils/fileProcessing.ts:7 | `split` on one character gives at least one piece and no piece contains the separator |
| JsStrings.SplitJoin | src/App.tsx:54-57 | splitting a join at its separator gives the pieces back when no piece contains the separator |
| JsStrings.SplitLast | src/utils/fileProcessing.ts:7 | the last piece of a split lies after the last separator, whatever precedes it |
| JsStrings.StrLeTotal | src/utils/fileProcessing.ts:63 | any two strings are ordered one way or the other by the default sort order |
| JsStrings.StrLeTransitive | src/utils/fileProcessing.ts:63 | the default string order is transitive |
| JsStrings.StrLeAntisymmetric | src/utils/fileProcessing.ts:63 | two strings ordered both ways are equal |
| JsArrays.FirstIndex | src/utils/mockData.ts:25 | the position of the first occurrence of an element, or the length when it does not occur |
| JsArrays.Dedup | src/utils/fileProcessing.ts:63 | `[...new Set(s)]`; what it holds and in which order is stated by DedupSpec |
| JsArrays.DedupSpec | src/utils/fileProcessing.ts:63 | `[...new Set(s)]` holds exactly the elements of s, each once, in the order of their first occurrences |
| JsArrays.KeyLe | src/utils/mockData.ts:26 | the default comparator on keys, `undefined` after every string; KeyLeTotal and KeyLeTransitive make it a total preorder and SortSpec sorts by it |
| JsArrays.Sort | src/utils/fileProcessing.ts:63 | the default `sort()`; its order, contents and stability are stated by SortSpec |
| JsArrays.SortSpec | src/utils/fileProcessing.ts:63 | the default `sort()` returns a permutation of its input, in ascending key order, with no duplicates when the input has none, and stable: of two elements with equal keys the one first in the input comes first |
| FileProcessing.Texts | src/utils/fileProcessing.ts:63 | each record's column turned into text by `String`; GroupedLabelsMembers and GroupPoints are stated over it |
| FileProcessing.PointOf | src/utils/fileProcessing.ts:53-55 | the `{x, y}` point pushed for one record; FindPointInGroup states that its y is what FirstY reads |
| FileProcessing.PointsOf | src/utils/fileProcessing.ts:52-61 | the points the `forEach` pushes for one group text; GroupPoints states that the Map's lists are these |
| FileProcessing.FindPoint | src/utils/fileProcessing.ts:67 | `points.find(p => p.x === label)` finds a point exactly when one has that x, and then it is the first such point |
| FileProcessing.FirstY | src/utils/fileProcessing.ts:52-61 | the y of the first record (input order) whose group text and x text match, or none when no record matches |
| FileProcessing.FindPointInGroup | src/utils/fileProcessing.ts:60-67 | searching a group's pushed points for a label gives the y of the first record of that group at that label |
| FileProcessing.AddPoint | src/utils/fileProcessing.ts:52-61 | one turn of the `forEach`: a record with a new group text appends that text to the Map's keys, and the record's point goes onto the end of its group's list, so the Map stays equal to the grouping of the records seen so far |
| FileProcessing.GroupPoints | src/utils/fileProcessing.ts:50-61 | the `forEach` leaves the Map's keys as the distinct group texts in first-encounter order, and each key holds its group's points in input order |
| FileProcessing.GroupedLabels | src/utils/fileProcessing.ts:63 | the grouped labels; GroupedLabelsAscending and GroupedLabelsMembers state their order and contents |
| FileProcessing.GroupedLabelsAscending | src/utils/fileProcessing.ts:63 | grouped labels are strictly ascending: sorted and without duplicates |
| FileProcessing.GroupedLabelsMembers | src/utils/fileProcessing.ts:63 | a text is a grouped label exactly when some record's x reads as that text |
| FileProcessing.GroupValues | src/utils/fileProcessing.ts:60-67 | for a Map built by the `forEach`, the point found under each key for each label carries the y of the first record of that group at that label |
| FileProcessing.GroupedDatasets | src/utils/fileProcessing.ts:64-72 | one dataset per Map key in key order, named after the key, with one value per label: the y of the first record with that group text and that x text, or 0 when there is none or it is 0 or NaN; two fresh colours and no fill |
| FileProcessing.GroupedChart | src/utils/fileProcessing.ts:49-74 | grouped labels strictly ascending and equal to the set of x texts; one dataset per distinct group text in first-encounter order; each value is the first matching record's y, or 0 |
| FileProcessing.Grouped | src/utils/fileProcessing.ts:49 | `if (groupBy)`: a group column counts only when it is given and not empty, so `""` builds the ungrouped chart, as ProcessDataForCharts states |
| FileProcessing.UngroupedChart | src/utils/fileProcessing.ts:76-83 | the ungrouped chart; ProcessDataForCharts states its labels, its single dataset and its colours |
| FileProcessing.ProcessDataForCharts | src/utils/fileProcessing.ts:41-87 | empty input gives no labels and no datasets; ungrouped gives one label per record in order and one dataset named after the y column with `Number(y)` per record; grouped as in GroupedChart; no dataset is filled |
| FileProcessing.Extension | src/utils/fileProcessing.ts:7 | the lower-cased last piece of the name split at dots; FormatOfName and FormatOfBareName state what it is |
| FileProcessing.FormatOf | src/utils/fileProcessing.ts:9-36 | the reader for an extension; FormatOfName and FormatOfBareName state which one is chosen |
| FileProcessing.FormatOfName | src/utils/fileProcessing.ts:7-37 | the reader is chosen by the lower-cased text after the last dot: "csv" reads CSV, "xlsx" or "xls" reads a spreadsheet, anything else rejects with "Unsupported file format" |
| FileProcessing.FormatOfBareName | src/utils/fileProcessing.ts:7-37 | a name without a dot is its own extension, lower-cased: "csv", "xlsx" or "xls" pick a reader, anything else rejects with "Unsupported file format" |
| MockData.StrictEquals | src/utils/mockData.ts:31 | `===` on raw cells: equal values, except that NaN equals nothing; FindRecord and CellValueSpec are stated over it |
| MockData.Matches | src/utils/mockData.ts:31 | the `find` predicate: the record's category and date are both `===` to the cell's; FindRecord returns the first record satisfying it |
| MockData.SortKey | src/utils/mockData.ts:26 | the default sort's key for one raw cell: `undefined` sorts last, any other value by its `String` text; MockLabels is sorted by it |
| MockData.SortKeys | src/utils/mockData.ts:26 | SortKey for one engine as the function given to the sort; MockLabels and MockLabelsAscending are stated over it |
| MockData.Categories | src/utils/mockData.ts:25 | the distinct `category` values; MockCategories states their order and contents |
| MockData.Labels | src/utils/mockData.ts:26 | the sorted distinct `date` values; MockLabels states their order and contents |
| MockData.FindRecord | src/utils/mockData.ts:31 | `data.find(..)` finds a record exactly when one has that category and that date under `===`, and then it is the first such record |
| MockData.CellValue | src/utils/mockData.ts:31 | the value of one cell; CellValueSpec states which value it is |
| MockData.ProcessDataForCharts | src/utils/mockData.ts:24-39 | the mock chart; MockCategories, MockLabels and MockValue state its datasets, labels and values |
| MockData.MockCategories | src/utils/mockData.ts:25-36 | one dataset per distinct `category` value, each once, in first-occurrence order, with one value per label, two colours and no fill |
| MockData.MockLabels | src/utils/mockData.ts:26 | the labels are the distinct `date` values, each once, sorted by the default order; two dates with the same text keep the order of their first occurrences in the data |
| MockData.MockLabelsAscending | src/utils/mockData.ts:26 | when every date is a string, the labels are strictly ascending strings |
| MockData.CellValueSpec | src/utils/mockData.ts:31 | the value for a category and a date is the first matching record's `value` unless falsy, and 0 when nothing matches |
| MockData.MockValue | src/utils/mockData.ts:28-32 | each chart value is the value CellValueSpec describes for that dataset's category and that label |
| App.Matches | src/App.tsx:34-36 | whether the search box keeps a record; FilterEmpty and FilterCaseInsensitive state how it treats the empty and the upper-case filter |
| App.Filter | src/App.tsx:33-37 | the filtered records; FilterSpec, FilterKeepsAll and FilterIdempotent state which records it keeps and in which order |
| App.FilterSpec | src/App.tsx:33-38 | the filtered records are a subsequence of the data, keeping every matching record as often as it occurs and no other |
| App.FilterEmpty | src/App.tsx:34-35 | the empty filter matches exactly the records with at least one property, so it keeps all records when every record has one |
| App.FilterKeepsAll | src/App.tsx:33-37 | a filter that every record matches returns the records unchanged |
| App.FilterIdempotent | src/App.tsx:32-39 | filtering the filtered records again with the same text changes nothing |
| App.FilterCaseInsensitive | src/App.tsx:35 | lower-casing the filter text does not change the result |
| App.Cells | src/App.tsx:56 | one row's cells under each column in column order; ExportCells states that each row line splits back into them |
| App.RowLine | src/App.tsx:55-56 | one row's cells joined by commas; ExportCells and ExportRoundTrip state what it reads back as |
| App.RowLines | src/App.tsx:55-56 | one line per filtered row, in order; ExportLines states that the body after the header splits into them |
| App.Cell | src/App.tsx:56 | the text of one cell; ExportCells and ExportRoundTrip state how it reads back |
| App.ExportBody | src/App.tsx:54-57 | the export after its prefix; ExportLines and ExportCells state its lines and cells |
| App.ExportText | src/App.tsx:53-57 | the export text; ExportLines and ExportRoundTrip state its prefix, its lines and what reads back from them |
| App.ExportLines | src/App.tsx:53-57 | the export starts with the data-URI prefix; after it, it splits at line breaks into the header and one line per row, or the header and an empty line when there are no rows |
| App.ExportCells | src/App.tsx:54-56 | the header splits at commas into the column names and each row line into its cells in column order |
| App.ExportRoundTrip | src/App.tsx:53-57 | without commas or line breaks in names and cells, line i + 1 of the export reads back as row i's cell under each column |
| App.At | src/App.tsx:26-27 | `newColumns[i]` is defined exactly when i is within the column list, and then it is the i-th column |
| App.Dashboard.constructor | src/App.tsx:11-18 | the initial state has no records, no columns, an empty filter and empty axis names |
| App.Dashboard.ResetColumns | src/App.tsx:21-30 | a non-empty data set's first record's keys become the columns, the first two become the axes, and the grouping is dropped; an empty one changes nothing |
| App.Dashboard.RecomputeFilter | src/App.tsx:32-39 | the filtered records become the filter applied to the full data, nothing else changes |
| App.Dashboard.SetFilter | src/App.tsx:32-39 | a new filter text re-filters the full data and keeps the dashboard invariant |
| App.Dashboard.SelectColumns | src/App.tsx:98 | a column selection replaces the whole selection and nothing else |
| App.Dashboard.HandleFileUpload | src/App.tsx:41-50 | an unsupported extension or a reader failure changes nothing; otherwise the records replace the data, the filtered records are the current filter applied to them, and the columns are reset |
| App.Dashboard.Export | src/App.tsx:52-57 | the export is the CSV text, under the current columns, of the full data filtered by the current filter text |

## Left out

- Decoding a file (src/utils/fileProcessing.ts:9-34: PapaParse with `dynamicTyping`, XLSX through `FileReader`) is not modelled. `HandleFileUpload` takes the reader's result as a parameter; only the choice of reader by extension is modelled. Cells such as `null` or booleans that the parsers can produce are outside `Num | Str`.
- `getRandomColor` and `getRandomColors` (`Math.random`) are replaced by the `draw` parameter.
- `generateMockData` (`Date`, `Math.random`) is not modelled.
- Number formatting and string-to-number parsing are parameters of `Coercion`. The model has no `-0`, no infinities and no floating-point rounding.
- `toLowerCase` is modelled on ASCII letters only. Other characters are left as they are.
- The default sort compares Dafny characters, not UTF-16 code units. The two orders can differ for characters outside the Basic Multilingual Plane.
- Types.Get: a column name that is an `Object.prototype` member (`constructor`, `toString`, `valueOf`, `__proto__`, …) reads the inherited value in JavaScript when a record lacks it, so the chart shows that function's text and the export renders it; the model reads `undefined` instead, giving "undefined" in the chart and "" in the export.
- `Object.keys` lists integer-like keys first in JavaScript. A record here keeps its keys in the order given.
- React's scheduling is not modelled. Effects are taken to run right after the state change that triggers them, in declaration order. `HandleFileUpload` runs both effects, because each upload yields a new array.
- The `alert` and `console.error` of a failed upload are left out.
- The download side of the export (`encodeURI`, the anchor element, the click) is left out.
- The chart built from the dashboard state for rendering (src/App.tsx:68-73) is left out. So are the chart type buttons and the components ChartContainer and DataControls. The rendering wiring is not logic.
