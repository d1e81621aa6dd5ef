# Hours sheet: the spreadsheet-creation handler

The hours application lets a user enter a month of work intervals (clock-in and
clock-out times per day) and turn them into a spreadsheet. The server side of
that is one POST handler, `app/api/create-sheet/route.ts`. It does the following:

1. It rejects a body that lacks `days` or `tokens` with a 400 `"Missing data"` answer.
2. It asks the file store to create a spreadsheet titled `Horas - <month>`.
3. It builds a table of cells. The table holds a fixed header row, then one row
   per interval in day order and then interval order, then a TOTAL row. Each
   interval row holds the date, the in-time, the out-time and an hours formula
   that names its own sheet row. The TOTAL row's `SUM` spans column D of the
   data rows.
4. It writes the table to `Hoja 1!A1:D<totalRow>`.
5. It answers with the spreadsheet's id and link.

The model has three modules:

- `Decimal` (`decimal.dfy`): how a template literal writes an integer. It
  proves a parse round trip and that a number followed by a non-digit is read
  back unambiguously.
- `CreateSheet` (`create_sheet.dfy`): the handler. It holds the request and
  response data, the guard, the title, the URL and the range string. Formulas
  are a `Formula` datatype rendered to the exact cell text. The table is
  defined once as a reference function, `SheetTable`. The row builder is the
  imperative method `BuildValues`. Its nested `while` loops keep `rowIndex`
  one ahead of the number of rows built, and it is proved equal to
  `SheetTable`. `Post` then sequences the guard, the two external calls and
  the answer.
- `Wrappers` (`wrappers.dfy`): `Option` and `Result`.

Each external call of the handler appears as a `Call` value in the list that
`Post` returns. The spreadsheet id that the file store assigns is a parameter
of `Post`.

All cells are modelled as text. The header, TOTAL and formula cells are
string literals and template strings. The date, in-time and out-time cells
are copied from the request, and their fields are taken to be strings, as
the handler's declared types say.

## Model

| member | source | states |
|---|---|---|
| `CreateSheet.CheckInput` | app/api/create-sheet/route.ts:27-31 | The request goes ahead exactly when `days` is present and `tokens` is truthy (`Truthy` is JavaScript truthiness), and then with the submitted days. Otherwise the result is the 400 `"Missing data"` error. |
| `CreateSheet.Post` | app/api/create-sheet/route.ts:21-95 | If days or tokens are missing, the answer is 400 `"Missing data"` and no external call is made. Otherwise the handler makes exactly two calls, in order. The first creates a spreadsheet named by the title, with the spreadsheet MIME type, and asks for the `id` field. The second writes `SheetTable(days)` to the range ending on the table's own length, with `USER_ENTERED`. The answer is 200 `"Sheet created"` with the id and its link. |
| `CreateSheet.TitleRoundTrip` | app/api/create-sheet/route.ts:45 | `SheetTitle(m)` is `"Horas - "` followed by the interpolated month. For a text month, the month can be read back from the title. |
| `CreateSheet.TitleOfMissingMonth` | app/api/create-sheet/route.ts:45 | `SheetTitle` writes a null month as `"Horas - null"` and an absent month as `"Horas - undefined"`, as the template literal does. |
| `CreateSheet.UrlRoundTrip` | app/api/create-sheet/route.ts:94 | `SheetUrl(id)`, the returned URL, is the Google Sheets document prefix followed by the spreadsheet id, and the id can be read back from it. |
| `CreateSheet.RangeRoundTrip` | app/api/create-sheet/route.ts:84 | `ValuesRange(n)` is `Hoja 1!A1:D<n>`, and it designates last row `n`. |
| `CreateSheet.RangeCoversTable` | app/api/create-sheet/route.ts:74-84 | `ValuesRange(totalRow)` ends exactly on the last row of `SheetTable(days)`. |
| `CreateSheet.RenderKind` | app/api/create-sheet/route.ts:68-79 | `Render` gives a row formula's text starting `=I…` and a total formula's text starting `=S…`. |
| `CreateSheet.RenderInjective` | app/api/create-sheet/route.ts:68-79 | `Render(RowHours(r))` is the per-row `=IF(AND(B<r>…` text and `Render(SumHours(l))` is `=SUM(D2:D<l>)`. Distinct formulas render to distinct cell texts. So a row formula's text names exactly one row, and a SUM's text names exactly one last row. |
| `CreateSheet.DaySlots` | app/api/create-sheet/route.ts:63 | One day contributes as many rows as it has intervals. |
| `CreateSheet.Flatten` | app/api/create-sheet/route.ts:62-63 | All intervals in day-then-interval order; there are exactly `TotalIntervals(days)` of them. |
| `CreateSheet.TotalIntervalsSnoc` | app/api/create-sheet/route.ts:62-72 | The interval count of the days is that of all days but the last, plus the last day's. |
| `CreateSheet.FlattenAt` | app/api/create-sheet/route.ts:62-69 | Interval `j` of day `i` sits at position (intervals of the days before `i`) + `j`. |
| `CreateSheet.SlotOrigin` | app/api/create-sheet/route.ts:62-69 | Every position in that order comes from some interval of some day. |
| `CreateSheet.DataRows` | app/api/create-sheet/route.ts:64-69 | One data row per interval. |
| `CreateSheet.DataRowsSnoc` | app/api/create-sheet/route.ts:64-70 | Pushing the row for one more interval onto the table extends the table by that row, numbered next. |
| `CreateSheet.BuildValues` | app/api/create-sheet/route.ts:57-80 | The pushed rows equal `SheetTable(days)`: the header, `DataRows` of the flattened intervals from row 2, then `TotalRow`. `totalRow` equals the table length, which equals 2 + the number of intervals. The inner loop keeps `rowIndex` equal to the number of rows built plus one before each push. |
| `CreateSheet.TableShape` | app/api/create-sheet/route.ts:57-80 | `SheetTable(days)` has 2 + (number of intervals) rows. The first row is exactly the header `Fecha, Hora ingreso, Hora salida, Horas trabajadas`. Every row has 4 cells. |
| `CreateSheet.TableDataRow` | app/api/create-sheet/route.ts:62-70 | Row 2 + (intervals before day `i`) + `j` holds interval `j` of day `i`. That row carries the date and the in and out times verbatim, neither checked nor reordered. Its formula is the hours formula of that same row. |
| `CreateSheet.TableRowOrigin` | app/api/create-sheet/route.ts:62-72 | Every row from 2 to the row before the last holds some interval of some day, laid out as above. |
| `CreateSheet.TotalRowSumsDataRows` | app/api/create-sheet/route.ts:74-80 | The last row of `SheetTable(days)` is `TotalRow`, that is `["", "", "TOTAL:", "=SUM(D2:D<last-1>)"]`. The rows whose D cell is the hours formula of their own row are exactly rows 2 to last-1, so the SUM covers all data rows and nothing else. |
| `CreateSheet.EmptyMonthTable` | app/api/create-sheet/route.ts:57-80 | With no intervals, the table is the header plus a total of `=SUM(D2:D1)`. |
| `Decimal.NatToString` | app/api/create-sheet/route.ts:68 | An interpolated row number is a non-empty string of digits without a leading zero. |
| `Decimal.StringToNatOfNatToString` | app/api/create-sheet/route.ts:68 | The decimal text of a row number reads back as that number. |
| `Decimal.NatToStringInjective` | app/api/create-sheet/route.ts:68 | Distinct row numbers have distinct texts. |
| `Decimal.NumberThenText` | app/api/create-sheet/route.ts:68-79 | A row number followed by text that starts with a non-digit determines both the number and the text. |

## Left out

- OAuth client construction and `setCredentials` (route.ts:34-43): wrappers over the `googleapis` SDK, which is not part of this model. `tokens` is only checked for truthiness.
- The Drive file creation and the Sheets values update (route.ts:46-52, 82-89) are network calls. They appear as `Call` values. The create call keeps its name, MIME type and `fields: "id"` selector. The update call keeps its spreadsheet id, range, value input option and values. The returned file id is the `createdId` parameter of `Post`, and both calls are taken to succeed.
- The exception-to-500 mapping (route.ts:97-100): it only stringifies errors raised by the SDK or by malformed input.
- JSON parsing of the body: the body is only cast to its declared type and never checked. `days` is modelled as `None` for every falsy value (absent, null, `false`, `0`, `""`) or as an array. `month` is modelled as absent, null or a text. A `days` value that is truthy but not an array (which would throw and end in a 500) is not modelled. Neither is a `month` that is a number, a boolean, an object or an array. Neither is a `date`, `in` or `out` that is not a string (the handler would push such a value, a number say, into the cell as it is). `NaN` among the falsy `tokens` values is not modelled.
- Integer widths: row numbers are unbounded naturals. JavaScript numbers lose precision above 2^53 rows, which is out of practical reach.
- What the spreadsheet service does with the written formulas (evaluates them) is not modelled. A formula is identified by its text.
- TotalRowSumsDataRows: coverage is stated over the written text (`D2:D<last-1>`). With no intervals the total row is sheet row 2 and holds `=SUM(D2:D1)` (see EmptyMonthTable). A spreadsheet reads that range as D1:D2, which includes the formula's own cell, so this case is a circular reference. The model does not capture that evaluation.
- `app/context/AuthContext.tsx`, `app/process-login/page.tsx`, `app/page.tsx`, `app/dashboard/page.tsx`, `app/api/auth/callback/route.ts` and `app/lib/googleAuth.ts` are browser state, routing and SDK wrappers with no logic to verify. The interval validation, month builder and submit/retry flow are client-side code outside this handler, so they are not modelled.
