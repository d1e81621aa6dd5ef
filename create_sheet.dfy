/**
 * The spreadsheet-creation endpoint of the hours application: a POST whose
 * body carries a month label, the month's days with their clock-in/clock-out
 * intervals, and the user's credential bundle. The handler rejects a body
 * without days or tokens, asks the file store to create a spreadsheet named
 * after the month, lays the intervals out as a table of cells (header, one row
 * per interval with a per-row hours formula, a TOTAL row with a SUM), writes
 * the table to the range that exactly covers it and answers with the
 * spreadsheet's link.
 *
 * The two external calls are not performed here: the handler returns the
 * calls it issues, in order, and the identifier the file store assigns to the
 * new spreadsheet is a parameter.
 */
module CreateSheet {
  import opened Wrappers
  import opened Decimal

  // ---------------------------------------------------------------------------
  // Request data

  /** One clock-in/clock-out pair, as the form submits it (times as text). */
  datatype Interval = Interval(clockIn: string, clockOut: string)

  /** A calendar date (text) with its intervals in form order. */
  datatype DayEntry = DayEntry(date: string, intervals: seq<Interval>)

  /**
   * A decoded JSON value, as the handler sees the untyped `tokens` field.
   * Only its truthiness is observed by the handler.
   */
  datatype JsValue = Undefined | Null | Bool(b: bool) | Number(n: int) | Str(s: string) | Object

  /** JavaScript truthiness of a JSON value (NaN is not modelled). */
  predicate Truthy(v: JsValue) {
    match v
    case Undefined => false
    case Null => false
    case Bool(b) => b
    case Number(n) => n != 0
    case Str(s) => s != ""
    case Object => true
  }

  /** The `month` field: absent, JSON null, or a text. */
  datatype MonthField = MonthAbsent | MonthNull | MonthText(text: string)

  /**
   * The request body. `None` for `days` stands for every falsy value there
   * (absent, null, false, 0, ""); an empty `days` array is `Some([])`, which
   * is truthy and passes the guard. Dates and times are taken to be strings,
   * as the handler's declared types say.
   */
  datatype RequestBody = RequestBody(month: MonthField, days: Option<seq<DayEntry>>, tokens: JsValue)

  datatype HttpError = HttpError(status: nat, message: string)

  const MissingData := HttpError(400, "Missing data")

  /** The guard at the top of the handler: days and tokens must both be present. */
  function CheckInput(body: RequestBody): (r: Result<seq<DayEntry>, HttpError>)
    ensures r.Success? <==> body.days.Some? && Truthy(body.tokens)
    ensures r.Success? ==> r.value == body.days.value
    ensures r.Failure? ==> r.error == MissingData && r.error.status == 400
  {
    if body.days.None? || !Truthy(body.tokens) then Failure(MissingData)
    else Success(body.days.value)
  }

  // ---------------------------------------------------------------------------
  // Names and addresses

  const TitlePrefix := "Horas - "

  /** How a template literal interpolates the month: absent reads "undefined", null reads "null". */
  function Interpolate(month: MonthField): (s: string) {
    match month
    case MonthAbsent => "undefined"
    case MonthNull => "null"
    case MonthText(t) => t
  }

  /** The name given to the new spreadsheet. */
  function SheetTitle(month: MonthField): (title: string) {
    TitlePrefix + Interpolate(month)
  }

  /** The month a title was made from can be read back from the title. */
  function MonthOfTitle(title: string): (month: Option<string>) {
    if |title| >= |TitlePrefix| && title[..|TitlePrefix|] == TitlePrefix then Some(title[|TitlePrefix|..])
    else None
  }

  lemma TitleRoundTrip(month: string)
    ensures MonthOfTitle(SheetTitle(MonthText(month))) == Some(month)
  {
  }

  /** A null month is written as the text "null", an absent one as "undefined". */
  lemma TitleOfMissingMonth()
    ensures SheetTitle(MonthNull) == "Horas - null"
    ensures SheetTitle(MonthAbsent) == "Horas - undefined"
  {
  }

  const UrlPrefix := "https://docs.google.com/spreadsheets/d/"

  /** The link returned to the client. */
  function SheetUrl(spreadsheetId: string): (url: string) {
    UrlPrefix + spreadsheetId
  }

  function SpreadsheetIdOfUrl(url: string): (spreadsheetId: Option<string>) {
    if |url| >= |UrlPrefix| && url[..|UrlPrefix|] == UrlPrefix then Some(url[|UrlPrefix|..])
    else None
  }

  lemma UrlRoundTrip(spreadsheetId: string)
    ensures SpreadsheetIdOfUrl(SheetUrl(spreadsheetId)) == Some(spreadsheetId)
  {
  }

  const SpreadsheetMimeType := "application/vnd.google-apps.spreadsheet"
  const SheetName := "Hoja 1"
  const ValueInputOption := "USER_ENTERED"

  /** The response fields asked of the file store when creating the spreadsheet. */
  const CreatedFields := "id"

  /** Everything of the written range up to its last row number. */
  const RangePrefix := SheetName + "!A1:D"

  /** The range the table is written to: columns A to D, rows 1 to totalRow. */
  function ValuesRange(totalRow: nat): (range: string) {
    RangePrefix + NatToString(totalRow)
  }

  /** The last row a range of the shape `Hoja 1!A1:D<n>` designates. */
  function RangeLastRow(range: string): (lastRow: Option<nat>) {
    if |range| > |RangePrefix| && range[..|RangePrefix|] == RangePrefix && AllDigits(range[|RangePrefix|..])
    then Some(StringToNat(range[|RangePrefix|..]))
    else None
  }

  lemma {:induction false} RangeRoundTrip(totalRow: nat)
    ensures RangeLastRow(ValuesRange(totalRow)) == Some(totalRow)
  {
    var r := ValuesRange(totalRow);
    assert r[..|RangePrefix|] == RangePrefix;
    assert r[|RangePrefix|..] == NatToString(totalRow);
    StringToNatOfNatToString(totalRow);
  }

  // ---------------------------------------------------------------------------
  // Formulas

  /**
   * The two formulas the table holds. RowHours(r) is the hours worked on
   * sheet row r ((out - in) * 24 when both B and C of that row are filled);
   * SumHours(l) sums column D from row 2 to row l.
   */
  datatype Formula = RowHours(row: nat) | SumHours(lastRow: nat)

  function RowHoursTail(r: nat): (tail: string) {
    "<>\"\", C" + NatToString(r) + "<>\"\"), (C" + NatToString(r) + "-B" + NatToString(r) + ")*24, \"\")"
  }

  /** The formula text as the handler writes it into the cell. */
  function Render(f: Formula): (text: string) {
    match f
    case RowHours(r) => "=IF(AND(B" + (NatToString(r) + RowHoursTail(r))
    case SumHours(l) => "=SUM(D2:D" + (NatToString(l) + ")")
  }

  /** The second character tells the two kinds of formula apart. */
  lemma RenderKind(f: Formula)
    ensures |Render(f)| > 1
    ensures Render(f)[1] == (if f.RowHours? then 'I' else 'S')
  {
  }

  /** A formula's text determines the formula, and hence the rows it refers to. */
  lemma RenderInjective(f: Formula, g: Formula)
    ensures Render(f) == Render(g) ==> f == g
  {
    RenderKind(f);
    RenderKind(g);
    if Render(f) == Render(g) && f.RowHours? {
      var p := "=IF(AND(B";
      var x, y := NatToString(f.row) + RowHoursTail(f.row), NatToString(g.row) + RowHoursTail(g.row);
      assert x == Render(f)[|p|..] == y;
      NumberThenText(f.row, RowHoursTail(f.row), g.row, RowHoursTail(g.row));
    } else if Render(f) == Render(g) {
      var p := "=SUM(D2:D";
      var x, y := NatToString(f.lastRow) + ")", NatToString(g.lastRow) + ")";
      assert x == Render(f)[|p|..] == y;
      NumberThenText(f.lastRow, ")", g.lastRow, ")");
    }
  }

  // ---------------------------------------------------------------------------
  // The table

  const Columns := 4
  const FirstDataRow := 2
  const HeaderRow: seq<string> := ["Fecha", "Hora ingreso", "Hora salida", "Horas trabajadas"]

  /** One interval together with the date of the day it belongs to. */
  datatype Slot = Slot(date: string, interval: Interval)

  function DaySlots(day: DayEntry): (r: seq<Slot>)
    ensures |r| == |day.intervals|
  {
    seq(|day.intervals|, j requires 0 <= j < |day.intervals| => Slot(day.date, day.intervals[j]))
  }

  /** The number of intervals over all days. */
  function TotalIntervals(days: seq<DayEntry>): (n: nat) {
    if days == [] then 0 else |days[0].intervals| + TotalIntervals(days[1..])
  }

  lemma {:induction false} TotalIntervalsSnoc(days: seq<DayEntry>)
    requires days != []
    ensures TotalIntervals(days) == TotalIntervals(days[..|days| - 1]) + |days[|days| - 1].intervals|
  {
    var n := |days|;
    if n > 1 {
      TotalIntervalsSnoc(days[1..]);
      assert days[1..][..n - 2] == days[..n - 1][1..];
    }
  }

  /** All intervals, in day order and within a day in interval order. */
  function Flatten(days: seq<DayEntry>): (r: seq<Slot>)
    ensures |r| == TotalIntervals(days)
  {
    if days == [] then []
    else
      TotalIntervalsSnoc(days);
      Flatten(days[..|days| - 1]) + DaySlots(days[|days| - 1])
  }

  /** Interval j of day i sits at position (intervals of days before i) + j. */
  lemma {:induction false} FlattenAt(days: seq<DayEntry>, i: nat, j: nat)
    requires i < |days| && j < |days[i].intervals|
    ensures TotalIntervals(days[..i]) + j < TotalIntervals(days)
    ensures Flatten(days)[TotalIntervals(days[..i]) + j] == Slot(days[i].date, days[i].intervals[j])
  {
    var n := |days|;
    var init := days[..n - 1];
    TotalIntervalsSnoc(days);
    if i == n - 1 {
      assert days[..i] == init;
    } else {
      assert init[..i] == days[..i];
      FlattenAt(init, i, j);
    }
  }

  /** Every position of the flattened sequence comes from some interval of some day. */
  lemma {:induction false} SlotOrigin(days: seq<DayEntry>, k: nat) returns (i: nat, j: nat)
    requires k < TotalIntervals(days)
    ensures i < |days| && j < |days[i].intervals|
    ensures k == TotalIntervals(days[..i]) + j
  {
    var n := |days|;
    var init := days[..n - 1];
    TotalIntervalsSnoc(days);
    if k < TotalIntervals(init) {
      i, j := SlotOrigin(init, k);
      assert init[..i] == days[..i];
    } else {
      i, j := n - 1, k - TotalIntervals(init);
      assert days[..i] == init;
    }
  }

  /** The data row for one interval written on sheet row `row`. */
  function DataRow(s: Slot, row: nat): (cells: seq<string>) {
    [s.date, s.interval.clockIn, s.interval.clockOut, Render(RowHours(row))]
  }

  /** Data rows for a sequence of slots, the first written on sheet row `first`. */
  function DataRows(slots: seq<Slot>, first: nat): (r: seq<seq<string>>)
    ensures |r| == |slots|
  {
    seq(|slots|, k requires 0 <= k < |slots| => DataRow(slots[k], first + k))
  }

  lemma DataRowsSnoc(slots: seq<Slot>, s: Slot, first: nat)
    ensures DataRows(slots + [s], first) == DataRows(slots, first) + [DataRow(s, first + |slots|)]
  {
    var a, b := DataRows(slots + [s], first), DataRows(slots, first) + [DataRow(s, first + |slots|)];
    assert forall k :: 0 <= k < |slots| ==> a[k] == b[k];
    assert a[|slots|] == b[|slots|];
  }

  /** The closing row whose SUM covers column D from row 2 to the row before it. */
  function TotalRow(totalRow: nat): (cells: seq<string>)
    requires totalRow >= 1
  {
    ["", "", "TOTAL:", Render(SumHours(totalRow - 1))]
  }

  /** The table the handler writes, as a reference definition. */
  function SheetTable(days: seq<DayEntry>): (table: seq<seq<string>>) {
    [HeaderRow] + DataRows(Flatten(days), FirstDataRow) + [TotalRow(TotalIntervals(days) + 2)]
  }

  /**
   * The row builder. `rowIndex` is the sheet row (1-based) the next data row
   * lands on; it stays one ahead of the number of rows already built.
   */
  method BuildValues(days: seq<DayEntry>) returns (values: seq<seq<string>>, totalRow: nat)
    ensures values == SheetTable(days)
    ensures totalRow == |values| == TotalIntervals(days) + 2
  {
    values := [HeaderRow];
    var rowIndex := FirstDataRow;
    var d := 0;
    while d < |days|
      invariant d <= |days|
      invariant values == [HeaderRow] + DataRows(Flatten(days[..d]), FirstDataRow)
      invariant rowIndex == |values| + 1
    {
      var day := days[d];
      ghost var done := Flatten(days[..d]);
      var j := 0;
      while j < |day.intervals|
        invariant j <= |day.intervals|
        invariant values == [HeaderRow] + DataRows(done + DaySlots(day)[..j], FirstDataRow)
        invariant rowIndex == |values| + 1
      {
        var interval := day.intervals[j];
        DataRowsSnoc(done + DaySlots(day)[..j], Slot(day.date, interval), FirstDataRow);
        assert DaySlots(day)[..j + 1] == DaySlots(day)[..j] + [Slot(day.date, interval)];
        values := values + [[day.date, interval.clockIn, interval.clockOut, Render(RowHours(rowIndex))]];
        rowIndex := rowIndex + 1;
        j := j + 1;
      }
      assert DaySlots(day)[..j] == DaySlots(day);
      assert days[..d + 1][..d] == days[..d];
      d := d + 1;
    }
    assert days[..d] == days;
    totalRow := rowIndex;
    values := values + [["", "", "TOTAL:", Render(SumHours(rowIndex - 1))]];
  }

  // ---------------------------------------------------------------------------
  // Properties of the table

  /** Header first, 2 + (number of intervals) rows, every row four cells wide. */
  lemma TableShape(days: seq<DayEntry>)
    ensures |SheetTable(days)| == TotalIntervals(days) + 2
    ensures SheetTable(days)[0] == HeaderRow
    ensures forall k :: 0 <= k < |SheetTable(days)| ==> |SheetTable(days)[k]| == Columns
  {
    var t := SheetTable(days);
    forall k | 0 <= k < |t| ensures |t[k]| == Columns {
      if 0 < k < |t| - 1 {
        assert t[k] == DataRow(Flatten(days)[k - 1], FirstDataRow + k - 1);
      }
    }
  }

  /**
   * Interval j of day i is written verbatim (date, in, out) on sheet row
   * 2 + (intervals of the days before i) + j, with a formula for that row.
   */
  lemma TableDataRow(days: seq<DayEntry>, i: nat, j: nat)
    requires i < |days| && j < |days[i].intervals|
    ensures var row := FirstDataRow + TotalIntervals(days[..i]) + j;
      row < |SheetTable(days)| &&
      SheetTable(days)[row - 1] ==
        [days[i].date, days[i].intervals[j].clockIn, days[i].intervals[j].clockOut, Render(RowHours(row))]
  {
    FlattenAt(days, i, j);
  }

  /** Every sheet row between the header and the total row holds some interval of some day. */
  lemma TableRowOrigin(days: seq<DayEntry>, row: nat) returns (i: nat, j: nat)
    requires FirstDataRow <= row < |SheetTable(days)|
    ensures i < |days| && j < |days[i].intervals|
    ensures row == FirstDataRow + TotalIntervals(days[..i]) + j
    ensures SheetTable(days)[row - 1] ==
      [days[i].date, days[i].intervals[j].clockIn, days[i].intervals[j].clockOut, Render(RowHours(row))]
  {
    i, j := SlotOrigin(days, row - FirstDataRow);
    TableDataRow(days, i, j);
  }

  /**
   * The last row is the total row, its SUM ends on the row before it, and the
   * rows that carry an hours formula for their own row are exactly rows 2 to
   * that last summed row: the SUM covers all data rows and nothing else.
   */
  lemma TotalRowSumsDataRows(days: seq<DayEntry>, row: nat)
    requires 1 <= row <= |SheetTable(days)|
    ensures var t := SheetTable(days);
      t[|t| - 1] == ["", "", "TOTAL:", Render(SumHours(|t| - 1))]
    ensures var t := SheetTable(days);
      t[row - 1][3] == Render(RowHours(row)) <==> FirstDataRow <= row <= |t| - 1
  {
    var t := SheetTable(days);
    RenderKind(RowHours(row));
    if row == |t| {
      RenderInjective(SumHours(|t| - 1), RowHours(row));
    } else if row > 1 {
      assert t[row - 1] == DataRow(Flatten(days)[row - 2], row);
    }
  }

  /** With no intervals the table is the header and a total summing D2:D1. */
  lemma EmptyMonthTable(days: seq<DayEntry>)
    requires TotalIntervals(days) == 0
    ensures SheetTable(days) == [HeaderRow, ["", "", "TOTAL:", "=SUM(D2:D1)"]]
  {
    assert DataRows(Flatten(days), FirstDataRow) == [];
    assert NatToString(1) == "1";
    assert Render(SumHours(1)) == "=SUM(D2:D" + ("1" + ")") == "=SUM(D2:D1)";
  }

  /** The written range ends exactly on the last row of the table. */
  lemma RangeCoversTable(days: seq<DayEntry>)
    ensures RangeLastRow(ValuesRange(TotalIntervals(days) + 2)) == Some(|SheetTable(days)|)
  {
    RangeRoundTrip(TotalIntervals(days) + 2);
  }

  // ---------------------------------------------------------------------------
  // The handler

  /** A call into the file store or the spreadsheet service. */
  datatype Call =
    | CreateFile(name: string, mimeType: string, fields: string)
    | UpdateValues(spreadsheetId: string, range: string, valueInputOption: string, values: seq<seq<string>>)

  datatype ResponseBody =
    | ErrorBody(error: string)
    | CreatedBody(message: string, spreadsheetId: string, url: string)

  datatype Response = Response(status: nat, body: ResponseBody)

  /**
   * The POST handler. `createdId` is the identifier the file store returns
   * for the spreadsheet it creates; `calls` lists the external calls issued,
   * in order.
   */
  method Post(body: RequestBody, createdId: string) returns (response: Response, calls: seq<Call>)
    ensures body.days.None? || !Truthy(body.tokens) ==>
      response == Response(400, ErrorBody("Missing data")) && calls == []
    ensures body.days.Some? && Truthy(body.tokens) ==>
      var table := SheetTable(body.days.value);
      calls == [CreateFile(SheetTitle(body.month), SpreadsheetMimeType, CreatedFields),
                UpdateValues(createdId, ValuesRange(|table|), ValueInputOption, table)] &&
      response == Response(200, CreatedBody("Sheet created", createdId, SheetUrl(createdId)))
  {
    var input := CheckInput(body);
    if input.Failure? {
      response := Response(input.error.status, ErrorBody(input.error.message));
      calls := [];
      return;
    }
    var days := input.value;
    calls := [CreateFile(SheetTitle(body.month), SpreadsheetMimeType, CreatedFields)];
    var spreadsheetId := createdId;
    var values, totalRow := BuildValues(days);
    calls := calls + [UpdateValues(spreadsheetId, ValuesRange(totalRow), ValueInputOption, values)];
    response := Response(200, CreatedBody("Sheet created", spreadsheetId, SheetUrl(spreadsheetId)));
  }
}
