/** Table extraction, validation and record conversion of an uploaded
    spreadsheet (server/services/excelParser.ts). The model starts from the
    first sheet as the grid of cell strings that `sheet_to_json` yields with
    `header: 1, defval: '', raw: false`: every cell is a string, empty cells
    are `''`, and rows may have different lengths. */
module ExcelParser {
  import opened JsValues
  import opened JsNumbers

  type Sheet = seq<seq<string>>

  /** One converted data row: header name to cell value. Key order is not modelled. */
  type FinancialRecord = map<string, Value>

  datatype Metadata = Metadata(sheetName: string, rowCount: nat, columnCount: nat, periods: seq<string>)

  datatype ParsedFinancialData = ParsedFinancialData(headers: seq<string>, rows: seq<seq<string>>, metadata: Metadata)

  const ParseErrorPrefix := "Failed to parse Excel file: "
  const NoDataError := "Excel file contains no data"
  const NoHeadersError := "Could not find valid headers in Excel file"
  const TooFewColumnsError := "Excel file must have at least 2 columns (account names and values)"
  const TooFewRowsError := "Excel file must have at least 3 data rows"
  const NoNumericDataError := "Excel file must contain numeric financial data"

  // ---------------------------------------------------------------------------
  // Extraction

  /** `cell && cell.toString().trim()` is truthy. */
  predicate IsFilled(cell: string) {
    Trim(cell) != ""
  }

  /** `row.some(cell => cell && cell.toString().trim())` */
  predicate HasContent(row: seq<string>) {
    exists i :: 0 <= i < |row| && IsFilled(row[i])
  }

  /** The first row at or after `from` that has content. */
  function FirstContentRow(sheet: Sheet, from: nat): (r: Option<nat>)
    requires from <= |sheet|
    ensures r.Some? ==> from <= r.value < |sheet| && HasContent(sheet[r.value])
    ensures r.Some? ==> forall j :: from <= j < r.value ==> !HasContent(sheet[j])
    ensures r.None? <==> forall j :: from <= j < |sheet| ==> !HasContent(sheet[j])
    decreases |sheet| - from
  {
    if from == |sheet| then None
    else if HasContent(sheet[from]) then Some(from)
    else FirstContentRow(sheet, from + 1)
  }

  /** `h` is the header row: the first row with content. */
  predicate IsHeaderRow(sheet: Sheet, h: nat) {
    h < |sheet| && HasContent(sheet[h]) && forall j :: 0 <= j < h ==> !HasContent(sheet[j])
  }

  /** `row.map(cell => cell ? cell.toString().trim() : '')` */
  function TrimRow(row: seq<string>): seq<string> {
    seq(|row|, i requires 0 <= i < |row| => Trim(row[i]))
  }

  /** A row cut or padded with `''` to `width` cells; copied cells are not
      trimmed (`row[i] || ''` is `row[i]` for a string cell). */
  function NormalizeRow(row: seq<string>, width: nat): seq<string> {
    seq(width, i requires 0 <= i < width => if i < |row| then row[i] else "")
  }

  /** The data rows made from `rows`: blank rows dropped, the rest normalized. */
  function DataRows(rows: seq<seq<string>>, width: nat): seq<seq<string>> {
    var kept := Filter(rows, HasContent);
    seq(|kept|, i requires 0 <= i < |kept| => NormalizeRow(kept[i], width))
  }

  function Lower(c: char): char {
    if 'A' <= c <= 'Z' then (c as int + 32) as char else c
  }

  const Months: set<string> := {"jan", "feb", "mar", "apr", "may", "jun", "jul", "aug", "sep", "oct", "nov", "dec"}

  /** `/\d{4}|Q[1-4]|Jan|...|Dec/i` matches starting at position `i`. */
  predicate PeriodTokenAt(h: string, i: nat) {
    || (i + 4 <= |h| && IsDigit(h[i]) && IsDigit(h[i + 1]) && IsDigit(h[i + 2]) && IsDigit(h[i + 3]))
    || (i + 2 <= |h| && Lower(h[i]) == 'q' && '1' <= h[i + 1] <= '4')
    || (i + 3 <= |h| && [Lower(h[i]), Lower(h[i + 1]), Lower(h[i + 2])] in Months)
  }

  /** The regular expression matches somewhere at or after position `i`. */
  function HasPeriodFrom(h: string, i: nat): (b: bool)
    requires i <= |h|
    ensures b <==> exists j :: i <= j < |h| && PeriodTokenAt(h, j)
    decreases |h| - i
  {
    if i == |h| then false else PeriodTokenAt(h, i) || HasPeriodFrom(h, i + 1)
  }

  /** `.test(header)` of the period pattern. */
  predicate IsPeriodLabel(h: string) {
    HasPeriodFrom(h, 0)
  }

  /** What `parseExcelFile` returns for a sheet, or the message it throws. */
  function Parse(sheet: Sheet, sheetName: string): (r: Result<ParsedFinancialData>)
    ensures r.Failure? ==> r.error == ParseErrorPrefix + NoDataError || r.error == ParseErrorPrefix + NoHeadersError
    ensures r.Success? ==>
      && r.value.metadata.sheetName == sheetName
      && r.value.metadata.rowCount == |r.value.rows|
      && r.value.metadata.columnCount == |r.value.headers|
      && forall i :: 0 <= i < |r.value.rows| ==> |r.value.rows[i]| == |r.value.headers|
  {
    if |sheet| == 0 then Failure(ParseErrorPrefix + NoDataError)
    else
      match FirstContentRow(sheet, 0)
      case None => Failure(ParseErrorPrefix + NoHeadersError)
      case Some(h) =>
        var headers := TrimRow(sheet[h]);
        var rows := DataRows(sheet[h + 1..], |headers|);
        Success(ParsedFinancialData(headers, rows, Metadata(sheetName, |rows|, |headers|, Filter(headers, IsPeriodLabel))))
  }

  /** One normalized row, built as the source does: an array filled with
      `''`, then the first `min(|row|, width)` cells copied in place. */
  method NormalizeRowInPlace(row: seq<string>, width: nat) returns (normalized: seq<string>)
    ensures normalized == NormalizeRow(row, width)
  {
    var a := new string[width](_ => "");
    var n := if |row| < width then |row| else width;
    var i := 0;
    while i < n
      invariant 0 <= i <= n
      invariant forall j :: 0 <= j < i ==> a[j] == row[j]
      invariant forall j :: i <= j < width ==> a[j] == ""
    {
      a[i] := row[i];
      i := i + 1;
    }
    normalized := a[..];
  }

  lemma DataRowsSnoc(rows: seq<seq<string>>, x: seq<string>, width: nat)
    ensures DataRows(rows + [x], width)
         == DataRows(rows, width) + (if HasContent(x) then [NormalizeRow(x, width)] else [])
  {
    assert (rows + [x])[..|rows + [x]| - 1] == rows;
  }

  /** `.filter(...).map(...)` over the rows below the header row. */
  method CollectDataRows(rows: seq<seq<string>>, width: nat) returns (dataRows: seq<seq<string>>)
    ensures dataRows == DataRows(rows, width)
  {
    dataRows := [];
    var k := 0;
    while k < |rows|
      invariant 0 <= k <= |rows|
      invariant dataRows == DataRows(rows[..k], width)
    {
      if HasContent(rows[k]) {
        var normalized := NormalizeRowInPlace(rows[k], width);
        dataRows := dataRows + [normalized];
      }
      DataRowsSnoc(rows[..k], rows[k], width);
      assert rows[..k + 1] == rows[..k] + [rows[k]];
      k := k + 1;
    }
    assert rows[..k] == rows;
  }

  /** `parseExcelFile` after the workbook has been read: finds the header
      row, then collects and normalizes the data rows. */
  method ParseExcelFile(sheet: Sheet, sheetName: string) returns (r: Result<ParsedFinancialData>)
    ensures r == Parse(sheet, sheetName)
  {
    if |sheet| == 0 {
      return Failure(ParseErrorPrefix + NoDataError);
    }
    var headerRow := FindHeaderRow(sheet);
    if headerRow.None? {
      return Failure(ParseErrorPrefix + NoHeadersError);
    }
    var headerRowIndex := headerRow.value;
    var headers := TrimRow(sheet[headerRowIndex]);
    var dataRows := CollectDataRows(sheet[headerRowIndex + 1..], |headers|);
    var periods := Filter(headers, IsPeriodLabel);
    r := Success(ParsedFinancialData(headers, dataRows, Metadata(sheetName, |dataRows|, |headers|, periods)));
  }

  /** The header search of `parseExcelFile`: a loop that breaks at the first
      row with a non-empty cell. The source signals "none found" by leaving
      `headers` empty. */
  method FindHeaderRow(sheet: Sheet) returns (h: Option<nat>)
    ensures h == FirstContentRow(sheet, 0)
  {
    var i := 0;
    while i < |sheet|
      invariant 0 <= i <= |sheet|
      invariant FirstContentRow(sheet, 0) == FirstContentRow(sheet, i)
    {
      if HasContent(sheet[i]) {
        return Some(i);
      }
      i := i + 1;
    }
    return None;
  }

  // ---------------------------------------------------------------------------
  // Properties of extraction

  /** The two failures: no rows at all, and no row with content. Every other
      sheet parses. */
  lemma ParseFailures(sheet: Sheet, sheetName: string)
    ensures |sheet| == 0 ==> Parse(sheet, sheetName) == Failure(ParseErrorPrefix + NoDataError)
    ensures |sheet| > 0 && (forall i :: 0 <= i < |sheet| ==> !HasContent(sheet[i]))
            ==> Parse(sheet, sheetName) == Failure(ParseErrorPrefix + NoHeadersError)
    ensures Parse(sheet, sheetName).Success? <==> exists h :: IsHeaderRow(sheet, h)
  {
    if Parse(sheet, sheetName).Success? {
      var h := FirstContentRow(sheet, 0).value;
      assert IsHeaderRow(sheet, h);
    }
  }

  /** The header row is the first row with content; rows above it are
      discarded; headers are its trimmed cells, so there are as many headers
      as that row has cells (at least one); the data rows come from the rows
      below it; the metadata counts them. */
  lemma ParseHeaderRow(sheet: Sheet, sheetName: string, h: nat)
    requires IsHeaderRow(sheet, h)
    ensures var headers := TrimRow(sheet[h]);
      var rows := DataRows(sheet[h + 1..], |sheet[h]|);
      Parse(sheet, sheetName)
        == Success(ParsedFinancialData(headers, rows, Metadata(sheetName, |rows|, |headers|, Filter(headers, IsPeriodLabel))))
    ensures |TrimRow(sheet[h])| == |sheet[h]| > 0
    ensures forall j :: 0 <= j < |sheet[h]| ==> TrimRow(sheet[h])[j] == Trim(sheet[h][j])
  {
    var r := FirstContentRow(sheet, 0);
    assert r.Some? && r.value == h;
  }

  /** Dropping blank rows keeps order: data rows of a concatenation are the
      concatenation of the data rows. */
  lemma DataRowsConcat(a: seq<seq<string>>, b: seq<seq<string>>, width: nat)
    ensures DataRows(a + b, width) == DataRows(a, width) + DataRows(b, width)
  {
    FilterConcat(a, b, HasContent);
  }

  /** A single row becomes a data row exactly when it has content. */
  lemma DataRowsSingle(x: seq<string>, width: nat)
    ensures DataRows([x], width) == if HasContent(x) then [NormalizeRow(x, width)] else []
  {
    DataRowsSnoc([], x, width);
    assert [] + [x] == [x];
  }

  /** Every data row has exactly `width` cells. */
  lemma DataRowsWidth(rows: seq<seq<string>>, width: nat)
    ensures forall r :: r in DataRows(rows, width) ==> |r| == width
  {
  }

  /** Normalizing truncates a long row and pads a short one with `''`,
      copying the cells it keeps unchanged. */
  lemma NormalizeRowShape(row: seq<string>, width: nat)
    ensures |row| >= width ==> NormalizeRow(row, width) == row[..width]
    ensures |row| <= width ==> NormalizeRow(row, width) == row + seq(width - |row|, _ => "")
  {
  }

  /** `periods` is the order-preserving sublist of the headers that match the
      period pattern: a header is in it exactly when it contains four digits,
      `Q1`..`Q4` or a month abbreviation, ignoring case. */
  lemma PeriodsAreMatchingHeaders(headers: seq<string>, x: string)
    ensures x in Filter(headers, IsPeriodLabel)
        <==> x in headers && exists j :: 0 <= j < |x| && PeriodTokenAt(x, j)
  {
    FilterMember(headers, IsPeriodLabel, x);
  }

  lemma PeriodExamples()
    ensures IsPeriodLabel("FY2023")
    ensures IsPeriodLabel("q3 Sales")
    ensures IsPeriodLabel("DECEMBER")
    ensures IsPeriodLabel("Market value")
    ensures !IsPeriodLabel("Item")
  {
    assert PeriodTokenAt("FY2023", 2);
    assert PeriodTokenAt("q3 Sales", 0);
    assert PeriodTokenAt("DECEMBER", 0);
    assert PeriodTokenAt("Market value", 0);
    assert !PeriodTokenAt("Item", 0) && !PeriodTokenAt("Item", 1) && !PeriodTokenAt("Item", 2) && !PeriodTokenAt("Item", 3);
  }

  // ---------------------------------------------------------------------------
  // Validation

  predicate IsStripped(c: char) {
    c == '$' || c == ',' || c == '(' || c == ')'
  }

  predicate IsKept(c: char) {
    !IsStripped(c)
  }

  /** `s.replace(/[$,()]/g, '')`, scanning left to right. */
  function Clean(s: string): (r: string)
    ensures |r| <= |s|
    ensures forall i :: 0 <= i < |r| ==> !IsStripped(r[i])
  {
    if s == [] then [] else (if IsStripped(s[0]) then [] else [s[0]]) + Clean(s[1..])
  }

  /** Cleaning keeps, in order, exactly the characters other than `$ , ( )`. */
  lemma {:induction false} CleanIsFilter(s: string)
    ensures Clean(s) == Filter(s, IsKept)
  {
    if s != [] {
      CleanIsFilter(s[1..]);
      FilterConcat([s[0]], s[1..], IsKept);
      assert [s[0]] + s[1..] == s;
      assert Filter([s[0]], IsKept) == Filter([], IsKept) + (if IsKept(s[0]) then [s[0]] else []);
    }
  }

  /** Cleaning works piecewise. */
  lemma CleanConcat(a: string, b: string)
    ensures Clean(a + b) == Clean(a) + Clean(b)
  {
    CleanIsFilter(a + b);
    CleanIsFilter(a);
    CleanIsFilter(b);
    FilterConcat(a, b, IsKept);
  }

  /** Cleaning is idempotent. */
  lemma CleanIdempotent(s: string)
    ensures Clean(Clean(s)) == Clean(s)
  {
    CleanIsFilter(Clean(s));
    FilterAll(Clean(s), IsKept);
  }

  /** The test both validation and conversion apply to a cell:
      `parseFloat(cleaned)` is neither NaN nor infinite. */
  predicate IsNumericCell(cell: string) {
    ParsesFinite(Clean(cell))
  }

  /** `rows.some(row => row.slice(1).some(cell => ...numeric...))` */
  function HasNumericData(rows: seq<seq<string>>): (b: bool)
    ensures b <==> exists r, c :: 0 <= r < |rows| && 1 <= c < |rows[r]| && IsNumericCell(rows[r][c])
  {
    if rows == [] then false
    else
      (exists c :: 1 <= c < |rows[0]| && IsNumericCell(rows[0][c])) || HasNumericData(rows[1..])
  }

  /** `validateFinancialData`: checks column count, then row count, then
      numeric content. The financial-vocabulary check only logs a warning and
      has no effect on the outcome. */
  function ValidateFinancialData(data: ParsedFinancialData): (o: Outcome)
    ensures o == Fail(TooFewColumnsError) <==> |data.headers| < 2
    ensures o == Fail(TooFewRowsError) <==> |data.headers| >= 2 && |data.rows| < 3
    ensures o == Fail(NoNumericDataError)
        <==> |data.headers| >= 2 && |data.rows| >= 3
             && !exists r, c :: 0 <= r < |data.rows| && 1 <= c < |data.rows[r]| && IsNumericCell(data.rows[r][c])
    ensures o == Pass
        <==> |data.headers| >= 2 && |data.rows| >= 3
             && exists r, c :: 0 <= r < |data.rows| && 1 <= c < |data.rows[r]| && IsNumericCell(data.rows[r][c])
  {
    if |data.headers| < 2 then Fail(TooFewColumnsError)
    else if |data.rows| < 3 then Fail(TooFewRowsError)
    else if !HasNumericData(data.rows) then Fail(NoNumericDataError)
    else Pass
  }

  // ---------------------------------------------------------------------------
  // Conversion

  function Abs(x: real): real {
    if x < 0.0 then -x else x
  }

  /** The value stored for a string cell at column `index`. */
  function Coerce(cell: string, index: nat): (r: Value)
    ensures r.Num? <==> index > 0 && IsNumericCell(cell)
    ensures !r.Num? ==> r == Str(cell)
  {
    if index > 0 && IsNumericCell(cell) then
      var n := ParseFloat(Clean(cell)).n;
      Num(if '(' in cell then -Abs(n) else n)
    else Str(cell)
  }

  /** `row[index]` after coercion; `undefined` past the end of the row. */
  function CellAt(row: seq<string>, index: nat): Value {
    if index < |row| then Coerce(row[index], index) else Missing
  }

  /** The coerced cell under each header, in column order. */
  function Cells(headers: seq<string>, row: seq<string>): (cs: seq<Value>)
    ensures |cs| == |headers| && forall j :: 0 <= j < |cs| ==> cs[j] == CellAt(row, j)
  {
    seq(|headers|, j requires 0 <= j < |headers| => CellAt(row, j))
  }

  const ProtoKey := "__proto__"

  /** `item[key] = value` on an object created as `{}`. The key `__proto__`
      names an accessor inherited from `Object.prototype`: its setter changes
      the prototype (or ignores a primitive value) and creates no own
      property. Any other key sets an own property. */
  function SetProperty(item: FinancialRecord, key: string, value: Value): (r: FinancialRecord)
    ensures key == ProtoKey ==> r == item
    ensures key != ProtoKey ==> key in r && r[key] == value
  {
    if key == ProtoKey then item else item[key := value]
  }

  /** The object after `forEach` has assigned the first `n` headers their
      values, in order. */
  function Assign(headers: seq<string>, values: seq<Value>, n: nat): FinancialRecord
    requires n <= |headers| && n <= |values|
  {
    if n == 0 then map[] else SetProperty(Assign(headers, values, n - 1), headers[n - 1], values[n - 1])
  }

  function ToRecord(headers: seq<string>, row: seq<string>): FinancialRecord {
    Assign(headers, Cells(headers, row), |headers|)
  }

  function Records(data: ParsedFinancialData): seq<FinancialRecord> {
    seq(|data.rows|, i requires 0 <= i < |data.rows| => ToRecord(data.headers, data.rows[i]))
  }

  /** The value `forEach` assigns for column `index`: `row[index]`, parsed
      when it is a string past column 0 whose cleaned text is finite. */
  method CoerceCell(row: seq<string>, index: nat) returns (value: Value)
    ensures value == CellAt(row, index)
  {
    value := if index < |row| then Str(row[index]) else Missing;
    if value.Str? && index > 0 {
      var cleaned := Clean(value.s);
      var numValue := ParseFloat(cleaned);
      if numValue.Num? {
        value := Num(if '(' in value.s then -Abs(numValue.n) else numValue.n);
      }
    }
  }

  /** One record, built by assigning each header in turn (a later column
      with the same header overwrites an earlier one). */
  method ConvertRow(headers: seq<string>, row: seq<string>) returns (item: FinancialRecord)
    ensures item == ToRecord(headers, row)
  {
    ghost var cells := Cells(headers, row);
    item := map[];
    var index := 0;
    while index < |headers|
      invariant 0 <= index <= |headers|
      invariant item == Assign(headers, cells, index)
    {
      var value := CoerceCell(row, index);
      RecordStep(headers, row, index);
      item := SetProperty(item, headers[index], value);
      index := index + 1;
    }
  }

  /** `convertToFinancialStructure`: one record per row, in row order. */
  method ConvertToFinancialStructure(data: ParsedFinancialData) returns (records: seq<FinancialRecord>)
    ensures |records| == |data.rows|
    ensures forall i :: 0 <= i < |records| ==> records[i] == ToRecord(data.headers, data.rows[i])
  {
    records := [];
    var i := 0;
    while i < |data.rows|
      invariant 0 <= i <= |data.rows|
      invariant |records| == i
      invariant forall j :: 0 <= j < i ==> records[j] == ToRecord(data.headers, data.rows[j])
    {
      var item := ConvertRow(data.headers, data.rows[i]);
      records := records + [item];
      i := i + 1;
    }
  }

  // ---------------------------------------------------------------------------
  // Properties of conversion

  /** One more assignment extends the record by one header. */
  lemma AssignStep(headers: seq<string>, values: seq<Value>, n: nat)
    requires n < |headers| && n < |values|
    ensures Assign(headers, values, n + 1) == SetProperty(Assign(headers, values, n), headers[n], values[n])
  {
  }

  /** The record after column `index` is the one before it with that
      column's coerced cell assigned. */
  lemma RecordStep(headers: seq<string>, row: seq<string>, index: nat)
    requires index < |headers|
    ensures Assign(headers, Cells(headers, row), index + 1)
         == SetProperty(Assign(headers, Cells(headers, row), index), headers[index], CellAt(row, index))
  {
    AssignStep(headers, Cells(headers, row), index);
  }

  /** A record's keys are exactly the headers assigned so far, except
      `__proto__`. */
  lemma {:induction false} AssignKeys(headers: seq<string>, values: seq<Value>, n: nat, k: string)
    requires n <= |headers| && n <= |values|
    ensures k in Assign(headers, values, n) <==> k in headers[..n] && k != ProtoKey
  {
    if n > 0 {
      AssignKeys(headers, values, n - 1, k);
      assert headers[..n] == headers[..n - 1] + [headers[n - 1]];
    }
  }

  /** Under each key sits the value of the LAST column with that header. */
  lemma {:induction false} AssignValue(headers: seq<string>, values: seq<Value>, n: nat, j: nat)
    requires j < n <= |headers| && n <= |values|
    requires headers[j] != ProtoKey
    requires forall j' :: j < j' < n ==> headers[j'] != headers[j]
    ensures headers[j] in Assign(headers, values, n)
    ensures Assign(headers, values, n)[headers[j]] == values[j]
  {
    if j < n - 1 {
      AssignValue(headers, values, n - 1, j);
      assert headers[n - 1] != headers[j];
    }
  }

  lemma RecordFields(headers: seq<string>, row: seq<string>, k: string, j: nat)
    requires j < |headers| && headers[j] == k && k != ProtoKey
    requires forall j' :: j < j' < |headers| ==> headers[j'] != k
    ensures k in ToRecord(headers, row)
    ensures ToRecord(headers, row)[k] == CellAt(row, j)
  {
    AssignValue(headers, Cells(headers, row), |headers|, j);
  }

  /** The record's keys are the headers other than `__proto__`. */
  lemma RecordKeys(headers: seq<string>, row: seq<string>)
    ensures forall k :: k in ToRecord(headers, row) <==> k in headers && k != ProtoKey
  {
    forall k ensures k in ToRecord(headers, row) <==> k in headers && k != ProtoKey {
      AssignKeys(headers, Cells(headers, row), |headers|, k);
      assert headers[..|headers|] == headers;
    }
  }

  /** Column 0 is never coerced, and a non-coercible cell is kept as the
      original (untrimmed) string. A coercible cell becomes `-abs(n)` when
      the original contains `(`, else `n`. */
  lemma CoerceCases(cell: string, index: nat)
    ensures index == 0 ==> Coerce(cell, index) == Str(cell)
    ensures index > 0 && !IsNumericCell(cell) ==> Coerce(cell, index) == Str(cell)
    ensures index > 0 && IsNumericCell(cell) && '(' in cell
            ==> Coerce(cell, index).Num? && Coerce(cell, index).n <= 0.0
                && Coerce(cell, index).n == -Abs(ParseFloat(Clean(cell)).n)
    ensures index > 0 && IsNumericCell(cell) && '(' !in cell
            ==> Coerce(cell, index) == ParseFloat(Clean(cell))
  {
  }

  /** Validation's numeric test and conversion's coercion agree cell by cell:
      a table passes the numeric check exactly when some cell past column 0
      is stored as a number. */
  lemma NumericCheckAgreesWithConversion(rows: seq<seq<string>>)
    ensures HasNumericData(rows)
        <==> exists r, c :: 0 <= r < |rows| && 1 <= c < |rows[r]| && CellAt(rows[r], c).Num?
  {
    if HasNumericData(rows) {
      var r, c :| 0 <= r < |rows| && 1 <= c < |rows[r]| && IsNumericCell(rows[r][c]);
      assert CellAt(rows[r], c).Num?;
    }
  }

  /** `Clean("(1,234.50)")`, in two pieces. */
  lemma CleanNegativeExample()
    ensures Clean("(1,23" + "4.50)") == "1234.50"
  {
    CleanNegativeHead();
    CleanNegativeTail();
    CleanConcat("(1,23", "4.50)");
  }

  lemma CleanNegativeHead()
    ensures Clean("(1,23") == "123"
  {
  }

  lemma CleanNegativeTail()
    ensures Clean("4.50)") == "4.50"
  {
  }

  lemma CleanCurrencyExample()
    ensures Clean("$5,000") == "5000"
  {
  }

  lemma CleanTextExample()
    ensures Clean("N/A") == "N/A"
  {
  }

  /** A cell past column 0 whose cleaned text parses to `n` becomes `n`,
      negated when the cell holds a parenthesis. */
  lemma CoerceParsed(cell: string, index: nat, n: real)
    requires index > 0 && ParseFloat(Clean(cell)) == Num(n)
    ensures Coerce(cell, index) == Num(if '(' in cell then -Abs(n) else n)
  {
  }

  lemma CoerceNegativeExample()
    ensures Coerce("(1,234.50)", 1) == Num(-1234.5)
  {
    var cell := "(1,23" + "4.50)";
    assert cell == "(1,234.50)";
    assert cell[0] == '(';
    CleanNegativeExample();
    ParseFloatFractionExample();
    CoerceParsed(cell, 1, 1234.5);
  }

  lemma CoerceCurrencyExample()
    ensures Coerce("$5,000", 1) == Num(5000.0)
  {
    assert '(' !in "$5,000";
    CleanCurrencyExample();
    ParseFloatIntegerExample();
    CoerceParsed("$5,000", 1, 5000.0);
  }

  lemma CoerceTextExample()
    ensures Coerce("N/A", 1) == Str("N/A")
  {
    CleanTextExample();
    ParseFloatNonFiniteExamples();
  }
}
