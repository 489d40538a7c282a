# Sales import and CRM report — a Dafny model

This project models two parts of a small CRM back end.

**The bulk sales import.** It exists twice: as the command-line script `server/scripts/importVentas.js` and as the `POST /ventas/import` route in `server/routes/ventas.js`. Both copies work the same way:

1. Pick a reader by the file's extension.
2. Turn a worksheet into header→text records.
3. Validate every record.
4. Commit the records to the `Ventas` table in batches of 200 rows, each batch in its own transaction:
   - a record with an `IdVenta` is upserted by that id;
   - a record without one is skipped when a sale with the same natural key already exists, and inserted otherwise.
5. Report `{ imported, skipped, errors }`. A batch that throws is rolled back, and the run goes on with the next batch.

The script also looks up the product's id by name. The route stores the product text as given.

**The report query builder.** This is `GET /reporte` in `server/routes/reporte.js`:
- It assembles the SQL text and its positional parameters from the optional filters `fechaInicio`, `fechaFin`, `ejecutivoId` and `productoId`.
- It groups by executive, or by executive and product.
- It echoes the filters back in `filtros`.

Modules, in dependency order:

| module | file | what it holds |
|---|---|---|
| `Wrappers` | `wrappers.dfy` | `Option` and `Result` |
| `Text` | `text.dfy` | `String.prototype.trim`, `join`, `slice(0, n)`, ASCII `toLowerCase` |
| `Formats` | `formats.dfy` | `path.extname` and the extension dispatch |
| `SheetParser` | `sheet.dfy` | `parseXLSX`'s row zipping, as functions and as the imperative `eachRow` loop |
| `SalesStore` | `store.dfy` | the `Ventas` table as a value; the `Connection` class, whose transaction keeps a snapshot for rollback |
| `Validator` | `validator.dfy` | both copies of `validateRow`, and the script's product lookup |
| `BatchCommitter` | `committer.dfy` | the batch loop, as specification functions and as methods on a `Connection`, with its properties |
| `ImportEntry` | `entry.dfy` | the script's `main` and the route handler |
| `Report` | `report.dfy` | the report query, its parameters, and the `filtros` echo |

## Parameters and oracles

What the model does not compute, it takes as a parameter:
- **Date and number parsing.** `Parsers` supplies `new Date(s).toISOString()` (`None` for an invalid date) and `parseFloat` (`None` for `NaN`).
- **JavaScript coercions that matter.** These are written out:
  - `new Date(null)` is the epoch, so it is a valid date.
  - `new Date('')` is invalid.
  - `parseFloat` of `null` or `''` is `NaN`.
- **Store failures.** `Faults` says which statement of which row throws, and with what message. It covers begin, lookup, upsert, existence query, insert and commit.
- **Connection failure.** `connectError` is the failure of `pool.getConnection`.
- **File contents.** `FileContent` is what the two readers return, or the exception they throw.
- **The product table.** It is a `map` from name to id.

## Behaviour worth noting

Three points of the code that are easy to misread:
- **Invalid rows.** An invalid row increments `skipped` as well as logging an error.
- **When validation runs.** Rows are validated one at a time inside their batch's transaction, not all before the first batch.
- **Message wording.** The date message is `FechaVenta requerida`, and the invalid-value messages are `Monto inválido` and `FechaVenta inválida`.

## Model

| member | source | states |
|---|---|---|
| Text.Trim | server/scripts/importVentas.js:41-45 | the result is the input without its leading and trailing white space (ECMAScript's trim set), and neither end of a non-empty result is white space |
| Text.TrimIdempotent | server/scripts/importVentas.js:41-45 | trimming an already trimmed cell (the CSV reader trims, then `validateRow` trims again) changes nothing |
| Text.Join | server/scripts/importVentas.js:118 | joining one message gives that message; the first message always starts the joined reason |
| Text.JoinAppend | server/scripts/importVentas.js:118 | joining two non-empty lists gives the first join, the separator, then the second join, so every message appears, in order, one `; ` apart |
| Text.Prefix | server/scripts/importVentas.js:55 | `slice(0, 10)` keeps the first `min(10, length)` characters, in order |
| Text.ToLower | server/scripts/importVentas.js:87 | lower-casing keeps the length and maps each character by itself |
| Text.ToLowerIdempotent | server/scripts/importVentas.js:87 | lower-casing a lower-cased text changes nothing |
| Formats.ExtNameLower | server/scripts/importVentas.js:87 | `extname` of the lower-cased path is the lower-cased `extname` of the path |
| Formats.FormatOf | server/scripts/importVentas.js:87-94 | the CSV reader is chosen exactly when the lower-cased extension is `.csv` or `.txt`; the spreadsheet reader exactly when it is `.xlsx` or `.xls`; otherwise no reader |
| Formats.FormatCaseInsensitive | server/routes/ventas.js:70-73 | two file names that differ only in letter case select the same reader |
| SheetParser.HeaderNames | server/scripts/importVentas.js:26 | the header row yields at most one name per cell, and the trimmed text of every non-empty cell is among them; a single cell gives its trimmed text, or no name when it is empty |
| SheetParser.HeaderNamesAppend | server/scripts/importVentas.js:26 | the names of a row are those of its first cells followed by those of the rest, so with the single-cell case they are exactly the present cells' trimmed texts in column order, empty cells closed up |
| SheetParser.HeaderNamesNoHoles | server/scripts/importVentas.js:26 | a header row without empty cells gives one name per column, the `i`-th being column `i`'s trimmed text |
| SheetParser.Zip | server/scripts/importVentas.js:28-32 | a data row's record has exactly the header names as keys |
| SheetParser.ZipAt | server/scripts/importVentas.js:29-31 | a header name that no later column repeats maps to the trimmed text of its own column, or `''` when that cell is empty or missing |
| SheetParser.DataRecords | server/scripts/importVentas.js:27-33 | the reference list of data records: one per data row, the `i`-th being that row zipped against the headers |
| SheetParser.ParseAfterHeader | server/scripts/importVentas.js:23-34 | after row 1, the headers are row 1's names and the records are exactly `DataRecords` of the rows visited |
| SheetParser.SheetWithHeaderRow | server/scripts/importVentas.js:17-36 | a sheet whose first row is row 1 yields one record per later row, in order, each keyed by exactly the header names |
| SheetParser.PushHeaders | server/scripts/importVentas.js:26 | the `forEach` over the header cells appends exactly `HeaderNames` of the row |
| SheetParser.ZipRow | server/scripts/importVentas.js:28-32 | the `forEach` over the headers builds exactly `Zip` of the headers and the row |
| SheetParser.ParseSheet | server/routes/ventas.js:22-41 | the `eachRow` callback's records are `SheetRecords` of the rows; this is the route's copy of `parseXLSX`, identical to the script's |
| SalesStore.UpsertEffect | server/scripts/importVentas.js:123-130 | the upsert leaves exactly one record under the id, holding the new sale; it touches no other record, and grows the table only for a new id |
| SalesStore.InsertEffect | server/scripts/importVentas.js:141-142 | the keyless insert adds one record and keeps every natural key that already existed |
| SalesStore.Connection.constructor | server/scripts/importVentas.js:107 | a fresh connection holds the given table, with no transaction open |
| SalesStore.Connection.BeginTransaction | server/scripts/importVentas.js:112 | opening a transaction remembers the table and changes nothing |
| SalesStore.Connection.Commit | server/scripts/importVentas.js:146 | a commit keeps the table as it is |
| SalesStore.Connection.Rollback | server/scripts/importVentas.js:148 | a rollback restores the table to its state when the transaction began |
| SalesStore.Connection.UpsertById | server/scripts/importVentas.js:123-130 | the table becomes its upsert by the id |
| SalesStore.Connection.ExistsByNaturalKey | server/scripts/importVentas.js:133-137 | the existence query answers true exactly when a stored record has the same client, product, date and amount |
| SalesStore.Connection.InsertKeyless | server/scripts/importVentas.js:141-142 | the table becomes its insert of the sale |
| Validator.ReadField | server/scripts/importVentas.js:41-45 | a field is present exactly when the column exists and is not `''`; its value is the trimmed text |
| Validator.IdVentaOf | server/scripts/importVentas.js:41 | an `IdVenta` is used exactly when the trimmed field is non-empty, and then it is that text |
| Validator.Messages | server/scripts/importVentas.js:47-54 | one message per error, in order, with the exact Spanish texts |
| Validator.RequiredFieldErrors | server/scripts/importVentas.js:47-50 | the four required-field checks push their errors in the order of the checks, each exactly when its field is missing |
| Validator.FieldErrors | server/scripts/importVentas.js:47-54 | an error is reported exactly when its check fails, and the errors appear in the order of the six checks |
| Validator.CollectFieldErrors | server/routes/ventas.js:52-59 | the successive `errors.push` calls produce exactly `FieldErrors` |
| Validator.NoFieldErrors | server/scripts/importVentas.js:47-54 | a row with no errors has all four required fields, a non-negative amount and a valid date |
| Validator.ValidSaleOf | server/scripts/importVentas.js:53-56 | the sale built from an error-free row has the trimmed client, the first 10 characters of the ISO date, the parsed amount, and the id when one is given |
| Validator.ValidateRoute | server/routes/ventas.js:43-63 | a row is invalid exactly when some field check fails, and then carries those messages in order; a valid row yields the sale `ValidSaleOf` describes, naming the trimmed `Producto` text |
| Validator.ValidateScript | server/scripts/importVentas.js:38-75 | field errors come first; then a lookup exception gives `Error buscando producto: …`; then a missing product gives `Producto no encontrado: …`; a row is valid exactly when none of these happens, and then it names the product's id |
| Validator.MissingClienteAndMontoReason | server/routes/ventas.js:52-58 | over HTTP, a row missing `IdCliente` and `Monto`, its other fields valid, is rejected with `IdCliente requerido`, `Monto requerido` and `Monto inválido`, and its reason joins the three with `; ` |
| Validator.MissingMontoReportsBoth | server/scripts/importVentas.js:49-52 | a missing `Monto` reports both `Monto requerido` and `Monto inválido` |
| Validator.NegativeMontoInvalid | server/scripts/importVentas.js:51-52 | a present but negative amount reports `Monto inválido` only |
| Validator.MissingFechaVentaMessages | server/scripts/importVentas.js:48-54 | an absent date reports only `FechaVenta requerida`, because `new Date(null)` is valid; a date of white space only reports both date messages |
| Validator.LookupOnlyAfterFieldChecks | server/scripts/importVentas.js:58-72 | a row with field errors is judged the same whatever the product table and whatever the lookup would do |
| BatchCommitter.ApplyRow | server/scripts/importVentas.js:114-144 | an invalid row is skipped and logged at line `i + j + 1`, with its messages joined by `; `; unless a statement throws (see `ApplyRowThrows`), a row with an id is upserted and counted as imported, and a keyless row is skipped when its natural key exists and otherwise inserted and counted; a statement that throws leaves the counters unchanged |
| BatchCommitter.ApplyRowThrows | server/scripts/importVentas.js:114-144 | an invalid row never throws; a row with an id throws exactly when its upsert throws; a keyless row throws exactly when its existence query throws or, its key being new, its insert throws; the step reports the message of the statement that threw |
| BatchCommitter.ApplyRowOn | server/scripts/importVentas.js:115-144 | one pass of the row loop on a connection has exactly `ApplyRow`'s effect on the counters and the table |
| BatchCommitter.RunRowsOn | server/scripts/importVentas.js:114-145 | the row loop of a batch has exactly `BatchFrom`'s effect and stops at the first row that throws |
| BatchCommitter.RunBatchOn | server/scripts/importVentas.js:111-150 | one batch on a connection has exactly `RunBatch`'s effect, and leaves no transaction open |
| BatchCommitter.RunImport | server/scripts/importVentas.js:106-151 | the batch loop on a connection has exactly `Import`'s effect, and leaves no transaction open |
| BatchCommitter.BatchFromFacts | server/scripts/importVentas.js:114-145 | each row of a batch is counted at most once, and all of them are counted when none throws; neither `imported` nor `skipped` decreases; the log only grows, and stays well-formed |
| BatchCommitter.RunBatchFacts | server/scripts/importVentas.js:110-150 | a batch aborts the run exactly when its `beginTransaction` throws, and then changes nothing; otherwise it counts at most its own rows, all of them when nothing failed; neither `imported` nor `skipped` decreases, whether the batch commits or rolls back |
| BatchCommitter.BatchAppendsLineErrors | server/scripts/importVentas.js:114-121 | the rows of a batch only append line errors to the log |
| BatchCommitter.BatchLineErrorsInOrder | server/scripts/importVentas.js:114-121 | the line errors one batch appends name rows of that batch (`i + j + 1` between `i + 1` and the batch's end) and their lines strictly increase |
| BatchCommitter.RolledBackBatchRestoresTable | server/scripts/importVentas.js:147-150 | a batch that ends the log with a new batch error, whatever earlier batches logged, leaves the table as it was before the batch, and its entry names the batch's first row, 1-based |
| BatchCommitter.RolledBack | server/scripts/importVentas.js:147-149 | a batch whose rows threw keeps the counters reached so far, restores the table, and appends `{ batchStart: i + 1, reason }` |
| BatchCommitter.CommitFailsRolledBack | server/scripts/importVentas.js:146-149 | a batch whose rows all went through but whose commit throws is rolled back as well: the table is the one before the batch, the counters keep what its rows added, and `{ batchStart: i + 1, reason }` carries the commit's message |
| BatchCommitter.ImportFromFacts | server/scripts/importVentas.js:110-151 | the batches from a given start count at most the remaining rows, and exactly those rows when no batch failed; neither `imported` nor `skipped` decreases; only a failed `beginTransaction` aborts the run |
| BatchCommitter.ImportCounts | server/scripts/importVentas.js:106-151 | over a whole run, `imported + skipped` is at most the number of rows, and equal to it when no batch failed; every logged entry is well-formed |
| BatchCommitter.NoFaultsNoBatchErrors | server/scripts/importVentas.js:146-149 | when no statement throws, the run neither aborts nor logs a batch error |
| BatchCommitter.NoFaultsCountsEveryRow | server/scripts/importVentas.js:110-151 | when no statement throws, every row is counted as imported or skipped |
| BatchCommitter.BatchStoresEverySale | server/scripts/importVentas.js:133-143 | on a store where no statement throws, a batch whose valid rows all lack `IdVenta` stores every valid row's sale and loses no natural key that existed before |
| BatchCommitter.ImportStoresFrom | server/scripts/importVentas.js:110-151 | on a store where no statement throws, a run over a file whose valid rows all lack `IdVenta` stores every valid row's sale and loses no natural key that existed before |
| BatchCommitter.BatchOfStoredAddsNothing | server/scripts/importVentas.js:133-140 | a batch whose valid rows all lack `IdVenta` and are all stored already imports nothing, and leaves the table as it is unless it throws and is rolled back |
| BatchCommitter.ImportOfStoredAddsNothing | server/scripts/importVentas.js:110-151 | a run over a file whose valid rows all lack `IdVenta` and are all stored already leaves the table as it is and imports nothing, whichever statements throw |
| BatchCommitter.ReImportAddsNothing | server/scripts/importVentas.js:133-143 | importing the same keyless file a second time changes nothing and imports nothing |
| BatchCommitter.RollbackKeepsCounters | server/scripts/importVentas.js:141-149 | two new keyless rows whose second insert throws leave the table unchanged, yet report one row imported and a batch error at row 1 |
| BatchCommitter.BatchReportsInvalidRow | server/scripts/importVentas.js:117-121 | a batch that reaches an invalid row logs it, and later rows of the batch never remove the entry |
| BatchCommitter.InvalidRowReportedFrom | server/scripts/importVentas.js:110-121 | an invalid row's entry is in the final log whenever the loop reaches the row: every batch up to its own began, and no earlier row of its batch has a failing upsert, existence query or insert, whether or not that row would run it; earlier batches may have been rolled back |
| BatchCommitter.InvalidRowReported | server/scripts/importVentas.js:118 | over a whole run, an invalid row `k` that the loop reaches is logged as line `k + 1`, with its messages joined by `; ` |
| ImportEntry.ReadRows | server/scripts/importVentas.js:89-90 | the rows are those of the reader the format selects; spreadsheet rows are zipped against row 1 |
| ImportEntry.CliMain | server/scripts/importVentas.js:77-157 | `main` on a connection ends as `RunCli` says, with the table `RunCli` gives, and no transaction open |
| ImportEntry.CliRejectsMissingFile | server/scripts/importVentas.js:78-86 | no path gives the usage message and a file that does not exist gives `Archivo no encontrado: <path>`; in both cases the table is untouched |
| ImportEntry.CliExitsOnlyOnUnsupportedFormat | server/scripts/importVentas.js:87-94 | the script exits with `Formato no soportado. Use .csv o .xlsx` exactly when the extension selects no reader, and then leaves the table untouched |
| ImportEntry.CliCaseInsensitive | server/scripts/importVentas.js:87 | the same file, named by two non-empty paths that differ only in letter case, leads to the same table, and either both runs print a summary or neither does |
| ImportEntry.CliSummaryAccountsForRows | server/scripts/importVentas.js:106-157 | a printed summary counts at most the file's rows, all of them when no batch failed, and logs only well-formed entries |
| ImportEntry.HandleImportOn | server/routes/ventas.js:65-122 | the handler on a connection responds as `HandleImport` says, with the table `HandleImport` gives, and no transaction open |
| ImportEntry.NoFileRejected | server/routes/ventas.js:66 | a request without a file gets 400 `Archivo requerido en campo file`, and the table is untouched |
| ImportEntry.UnsupportedRejectedBeforeReading | server/routes/ventas.js:70-73 | an unsupported extension gets 400 `Formato no soportado. Enviar .csv o .xlsx`, whatever the file holds and whatever the store would do |
| ImportEntry.HandlerCaseInsensitive | server/routes/ventas.js:70-72 | the same uploaded file, named in either case (two names that differ only in letter case), gets the same response and the same table |
| ImportEntry.RejectedLeavesTable | server/routes/ventas.js:66-120 | every 400 response leaves the table untouched; a failed connection gives 500 with its message before any row is written |
| ImportEntry.HandlerSummaryAccountsForRows | server/routes/ventas.js:75-117 | a 200 summary counts at most the uploaded rows, all of them when no batch failed, and logs only well-formed entries |
| Report.BuildReportQuery | server/routes/reporte.js:16-56 | the successive `query +=` and `params.push` calls produce exactly `ReportSql` and `ReportParams` |
| Report.ApplyFilter | server/routes/reporte.js:33-48 | one filter's `if` appends its clause and its value exactly when the value is truthy |
| Report.TemplateHasNoPlaceholder | server/routes/reporte.js:16-29 | the SELECT template contains no `?`, whatever the grouping |
| Report.ClausePlaceholders | server/routes/reporte.js:33-36 | each filter clause has as many `?` as the values it pushes, and at most one |
| Report.PlaceholdersMatchParams | server/routes/reporte.js:31-56 | the final SQL has exactly as many `?` as there are parameters, and at most four |
| Report.ActiveFilters | server/routes/reporte.js:33-48 | a filter adds a clause exactly when its value is truthy, and the clauses follow the fixed order `fechaInicio`, `fechaFin`, `ejecutivoId`, `productoId` |
| Report.ParamsFollowClauses | server/routes/reporte.js:33-48 | the `i`-th parameter is the value of the `i`-th clause's filter |
| Report.AbsentFilterAddsNothing | server/routes/reporte.js:33-48 | a missing or empty filter leaves the SQL and the parameters as if it were not in the request |
| Report.GivenFilterAddsOne | server/routes/reporte.js:33-48 | a given filter adds exactly one `?` and one parameter |
| Report.GroupByChoice | server/routes/reporte.js:13-54 | an absent `groupBy` means `ejecutivo`; any value other than `producto` builds the same SQL as `ejecutivo`; `producto` adds the product columns to SELECT and GROUP BY |
| Report.OrderByLast | server/routes/reporte.js:56 | the SQL starts with the template and ends with ` ORDER BY MontoTotalVentas DESC` |
| Report.EchoMatchesQuery | server/routes/reporte.js:86-93 | `filtros` shows a filter's value exactly when that filter added a clause, and `todos` otherwise; `agrupadoPor` is the grouping in effect |
| Report.EchoedValuesAreBound | server/routes/reporte.js:86-93 | every value `filtros` shows for a filter with a clause is one of the bound parameters |

## Left out

- CSV decoding (`fast-csv`) and reading the workbook file (ExcelJS): the readers' outputs, or their exceptions, are inputs.
- `Date` and `parseFloat`: their parsing rules are not modelled. They are oracles, apart from the `null` and `''` cases written out above.
- The store's SQL semantics are not modelled:
  - The natural-key test is exact equality of client, product, date and amount; MySQL collation and float comparison are not modelled.
  - Ids the store assigns to keyless inserts are not modelled.
  - `IdVenta` is compared as text. MySQL compares it under the column's type, so `7` and `07` would name the same numeric id there but two ids here.
  - A stored sale holds one product reference, `IdProducto` or `Producto`. In the store, the two are separate columns. The script's upsert updates `IdProducto` only and the route's updates `Producto` only, so a record written by both copies keeps both columns. The model replaces the whole record, and its natural-key test compares only the reference of the copy that runs.
  - A product name that matches several products cannot occur, because the product table is a map.
- A statement that throws is modelled as changing nothing.
- `rollback` itself is modelled as never failing.
- The product table is fixed for the whole run; the import never writes it.
- Console output, `process.exit` codes, `connection.release`, `pool.end`, `fs.unlink` of the upload, multer's storage, and Express's handling of repeated query parameters (arrays) are not modelled.
- `toLowerCase` is modelled for ASCII letters only. Other letters never occur in the four supported extensions.
- Concurrency: two imports racing on the existence query, and reports running beside imports.
- The report's execution, its `totales` floating-point arithmetic, and the `detalle` rows: the model stops at the SQL text and its parameters.
- BatchCommitter.ImportStoresFrom: holds only for files whose valid rows all lack `IdVenta`. In a file mixing the two, a later upsert by id can overwrite the record a keyless row was skipped against, so that row's sale is no longer stored.
- BatchCommitter.ImportOfStoredAddsNothing: holds only for files whose valid rows all lack `IdVenta`. A row with `IdVenta` is upserted and counted as imported even when its sale is already stored.
- BatchCommitter.RollbackKeepsCounters: states one concrete scenario (two rows, the second insert throws). The general statements are `RolledBack` and `BatchFromFacts`.
- BatchCommitter.ReImportAddsNothing: covers files whose valid rows all lack `IdVenta`, on a store where no statement throws. Re-upserting by id leaves the table equal anyway, but still counts as imported.
- ImportEntry.CliCaseInsensitive: compares the table and whether a summary is printed. It does not compare the summaries or the messages, because `Archivo no encontrado: <path>` names the path as typed.
