/**
 * The two entry points of the import: the command-line `main` of the script and the
 * `POST /ventas/import` handler. Both pick a reader from the file extension, read the rows and
 * hand them to the batch committer on one connection; they differ in how they report.
 */
module ImportEntry {
  import opened Wrappers
  import opened Text
  import opened Formats
  import opened SheetParser
  import opened SalesStore
  import opened Validator
  import opened BatchCommitter

  /**
   * What the two readers make of a file: the delimited-text reader's records, or the
   * worksheet rows ExcelJS visits; `Err` carries the message of the exception a reader throws.
   */
  datatype FileContent = FileContent(csv: Result<seq<Record>>, sheet: Result<seq<SheetRow>>)

  /** The rows the chosen reader returns; the spreadsheet rows are zipped against row 1. */
  function RowsOf(format: Format, file: FileContent): Result<seq<Record>> {
    match format
    case Csv => file.csv
    case Spreadsheet =>
      if file.sheet.Ok? then Ok(SheetRecords(file.sheet.value)) else Err(file.sheet.message)
  }

  /** `rows = await parseCSV(…)` or `rows = await parseXLSX(…)`, by format. */
  method ReadRows(format: Format, file: FileContent) returns (rows: Result<seq<Record>>)
    ensures rows == RowsOf(format, file)
  {
    if format == Csv {
      rows := file.csv;
    } else if file.sheet.Err? {
      rows := Err(file.sheet.message);
    } else {
      var records := ParseSheet(file.sheet.value);
      rows := Ok(records);
    }
  }

  // ---------------------------------------------------------------------------------------
  // The command line

  const UsageMessage: string := "Uso: node importVentas.js <ruta-al-archivo.csv|xlsx>"
  const UnsupportedCliMessage: string := "Formato no soportado. Use .csv o .xlsx"

  /** `console.error('Archivo no encontrado:', filePath)` joins its arguments with a space. */
  function NotFoundFileMessage(path: string): string {
    "Archivo no encontrado: " + path
  }

  /**
   * How `main` ends: the summary printed, `process.exit(1)` after an error message, or the
   * rejection that `main().catch` reports before exiting.
   */
  datatype CliResult = Printed(summary: Summary) | Exited(message: string) | Crashed(message: string)

  /**
   * `main` on the argument `arg`, a file that exists (`fileExists`) or not and reads as `file`, the product
   * table `products`, and a store whose connection fails with `connectError` or whose
   * statements fail as `faults` says; with the table that results.
   */
  function RunCli(arg: Option<string>, fileExists: bool, file: FileContent, products: map<string, int>,
                  parsers: Parsers, faults: Faults, connectError: Option<string>, t0: Table): (CliResult, Table)
  {
    if arg.None? || arg.value == "" then (Exited(UsageMessage), t0)
    else if !fileExists then (Exited(NotFoundFileMessage(arg.value)), t0)
    else CliImport(FormatOf(arg.value), file, products, parsers, faults, connectError, t0)
  }

  /** `main` from the extension dispatch on, given the format the extension selects. */
  function CliImport(format: Option<Format>, file: FileContent, products: map<string, int>,
                     parsers: Parsers, faults: Faults, connectError: Option<string>, t0: Table): (CliResult, Table)
  {
    if format.None? then (Exited(UnsupportedCliMessage), t0)
    else
      var rows := RowsOf(format.value, file);
      if rows.Err? then (Crashed(rows.message), t0)
      else if connectError.Some? then (Crashed(connectError.value), t0)
      else
        var o := Import(Env(rows.value, RowCheck(Script(products), rows.value, parsers, faults), faults), t0);
        if o.aborted.Some? then (Crashed(o.aborted.value), o.table)
        else (Printed(o.summary), o.table)
  }

  /** `main`, on the connection `conn`. */
  method CliMain(conn: Connection, arg: Option<string>, fileExists: bool, file: FileContent,
                 products: map<string, int>, parsers: Parsers, faults: Faults, connectError: Option<string>)
      returns (result: CliResult)
    requires !conn.inTransaction
    modifies conn
    ensures (result, conn.table) == RunCli(arg, fileExists, file, products, parsers, faults, connectError, old(conn.table))
    ensures !conn.inTransaction
  {
    if arg.None? || arg.value == "" {
      return Exited(UsageMessage);
    }
    var path := arg.value;
    if !fileExists {
      return Exited(NotFoundFileMessage(path));
    }
    var format := FormatOf(path);
    if format.None? {
      return Exited(UnsupportedCliMessage);
    }
    var rows := ReadRows(format.value, file);
    if rows.Err? {
      return Crashed(rows.message);
    }
    if connectError.Some? {
      return Crashed(connectError.value);
    }
    var env := Env(rows.value, RowCheck(Script(products), rows.value, parsers, faults), faults);
    var summary, aborted := RunImport(conn, env);
    if aborted.Some? {
      return Crashed(aborted.value);
    }
    return Printed(summary);
  }

  // ---------------------------------------------------------------------------------------
  // The HTTP route

  const NoFileMessage: string := "Archivo requerido en campo file"
  const UnsupportedHttpMessage: string := "Formato no soportado. Enviar .csv o .xlsx"

  /** The uploaded `file` field: its original name and what the readers make of it. */
  datatype Upload = Upload(originalName: string, content: FileContent)

  /** A JSON response: `{ error }` or the summary. */
  datatype Body = ErrorBody(error: string) | SummaryBody(summary: Summary)
  datatype Response = Response(status: nat, body: Body)

  /**
   * The `/ventas/import` handler on the upload (absent when the request has no `file`
   * field), with the table that results.
   */
  function HandleImport(upload: Option<Upload>, parsers: Parsers, faults: Faults,
                        connectError: Option<string>, t0: Table): (Response, Table)
  {
    if upload.None? then (Response(400, ErrorBody(NoFileMessage)), t0)
    else HandleUpload(FormatOf(upload.value.originalName), upload.value.content, parsers, faults, connectError, t0)
  }

  /** The handler from the extension dispatch on, given the format the extension selects. */
  function HandleUpload(format: Option<Format>, content: FileContent, parsers: Parsers, faults: Faults,
                        connectError: Option<string>, t0: Table): (Response, Table)
  {
    if format.None? then (Response(400, ErrorBody(UnsupportedHttpMessage)), t0)
    else
      var rows := RowsOf(format.value, content);
      if rows.Err? then (Response(500, ErrorBody(rows.message)), t0)
      else if connectError.Some? then (Response(500, ErrorBody(connectError.value)), t0)
      else
        var o := Import(Env(rows.value, RowCheck(Route, rows.value, parsers, faults), faults), t0);
        if o.aborted.Some? then (Response(500, ErrorBody(o.aborted.value)), o.table)
        else (Response(200, SummaryBody(o.summary)), o.table)
  }

  /** The handler, on the connection `conn`. */
  method HandleImportOn(conn: Connection, upload: Option<Upload>, parsers: Parsers, faults: Faults,
                        connectError: Option<string>)
      returns (response: Response)
    requires !conn.inTransaction
    modifies conn
    ensures (response, conn.table) == HandleImport(upload, parsers, faults, connectError, old(conn.table))
    ensures !conn.inTransaction
  {
    if upload.None? {
      return Response(400, ErrorBody(NoFileMessage));
    }
    var format := FormatOf(upload.value.originalName);
    if format.None? {
      return Response(400, ErrorBody(UnsupportedHttpMessage));
    }
    var rows := ReadRows(format.value, upload.value.content);
    if rows.Err? {
      return Response(500, ErrorBody(rows.message));
    }
    if connectError.Some? {
      return Response(500, ErrorBody(connectError.value));
    }
    var env := Env(rows.value, RowCheck(Route, rows.value, parsers, faults), faults);
    var summary, aborted := RunImport(conn, env);
    if aborted.Some? {
      return Response(500, ErrorBody(aborted.value));
    }
    return Response(200, SummaryBody(summary));
  }

  /**
   * An upload whose extension is not supported is rejected with 400 before anything is read
   * or any connection is taken: the response and the table do not depend on the file's
   * content, the store's behaviour or the connection.
   */
  lemma UnsupportedRejectedBeforeReading(name: string, c1: FileContent, c2: FileContent, parsers: Parsers,
                                         f1: Faults, f2: Faults, e1: Option<string>, e2: Option<string>, t0: Table)
    requires FormatOf(name).None?
    ensures HandleImport(Some(Upload(name, c1)), parsers, f1, e1, t0)
            == HandleImport(Some(Upload(name, c2)), parsers, f2, e2, t0)
            == (Response(400, ErrorBody(UnsupportedHttpMessage)), t0)
  {
  }

  /** The handler does not care about the letter case of the uploaded file's name. */
  lemma HandlerCaseInsensitive(n1: string, n2: string, content: FileContent, parsers: Parsers,
                               faults: Faults, connectError: Option<string>, t0: Table)
    requires ToLower(n1) == ToLower(n2)
    ensures HandleImport(Some(Upload(n1, content)), parsers, faults, connectError, t0)
            == HandleImport(Some(Upload(n2, content)), parsers, faults, connectError, t0)
  {
    FormatCaseInsensitive(n1, n2);
    assert HandleImport(Some(Upload(n1, content)), parsers, faults, connectError, t0)
           == HandleUpload(FormatOf(n1), content, parsers, faults, connectError, t0);
    assert HandleImport(Some(Upload(n2, content)), parsers, faults, connectError, t0)
           == HandleUpload(FormatOf(n2), content, parsers, faults, connectError, t0);
  }

  /**
   * A successful response accounts for at most every row, and for every row when it lists no
   * batch error; each of its error entries is well-formed.
   */
  lemma HandlerSummaryAccountsForRows(upload: Option<Upload>, parsers: Parsers, faults: Faults,
                                      connectError: Option<string>, t0: Table)
    ensures var r := HandleImport(upload, parsers, faults, connectError, t0);
            r.0.status == 200 ==>
              var rows := RowsOf(FormatOf(upload.value.originalName).value, upload.value.content).value;
              var s := r.0.body.summary;
              && s.imported + s.skipped <= |rows|
              && (NoBatchErrors(s.errors) ==> s.imported + s.skipped == |rows|)
              && EntriesOk(Env(rows, RowCheck(Route, rows, parsers, faults), faults), s.errors)
  {
    var r := HandleImport(upload, parsers, faults, connectError, t0);
    if r.0.status == 200 {
      var rows := RowsOf(FormatOf(upload.value.originalName).value, upload.value.content).value;
      ImportCounts(Env(rows, RowCheck(Route, rows, parsers, faults), faults), t0);
    }
  }

  /** The command line, too, does not care about the letter case of the file's name. */
  lemma CliCaseInsensitive(p1: string, p2: string, fileExists: bool, file: FileContent, products: map<string, int>,
                           parsers: Parsers, faults: Faults, connectError: Option<string>, t0: Table)
    requires ToLower(p1) == ToLower(p2) && p1 != "" && p2 != ""
    ensures RunCli(Some(p1), fileExists, file, products, parsers, faults, connectError, t0).1
            == RunCli(Some(p2), fileExists, file, products, parsers, faults, connectError, t0).1
    ensures RunCli(Some(p1), fileExists, file, products, parsers, faults, connectError, t0).0.Printed?
            == RunCli(Some(p2), fileExists, file, products, parsers, faults, connectError, t0).0.Printed?
  {
    FormatCaseInsensitive(p1, p2);
    if fileExists {
      assert RunCli(Some(p1), fileExists, file, products, parsers, faults, connectError, t0)
             == CliImport(FormatOf(p1), file, products, parsers, faults, connectError, t0);
      assert RunCli(Some(p2), fileExists, file, products, parsers, faults, connectError, t0)
             == CliImport(FormatOf(p2), file, products, parsers, faults, connectError, t0);
    }
  }

  /** A request without a `file` field is rejected with 400 and touches nothing. */
  lemma NoFileRejected(parsers: Parsers, faults: Faults, connectError: Option<string>, t0: Table)
    ensures HandleImport(None, parsers, faults, connectError, t0) == (Response(400, ErrorBody(NoFileMessage)), t0)
  {
  }

  /**
   * Every 400 response leaves the table as it was, and so does every 500 response raised
   * before the first batch began: a reader's exception or a failed `getConnection`.
   */
  lemma RejectedLeavesTable(upload: Option<Upload>, parsers: Parsers, faults: Faults,
                            connectError: Option<string>, t0: Table)
    ensures var r := HandleImport(upload, parsers, faults, connectError, t0);
            r.0.status == 400 ==> r.1 == t0
    ensures var r := HandleImport(upload, parsers, faults, connectError, t0);
            upload.Some? && FormatOf(upload.value.originalName).Some? && connectError.Some? ==>
              r == (Response(500, ErrorBody(connectError.value)), t0)
              || (RowsOf(FormatOf(upload.value.originalName).value, upload.value.content).Err? && r.1 == t0)
  {
  }

  /**
   * The command line exits with an error message, before reading rows or opening a
   * connection, when the path is missing or empty or the file does not exist; neither touches
   * the store.
   */
  lemma CliRejectsMissingFile(arg: Option<string>, fileExists: bool, file: FileContent, products: map<string, int>,
                              parsers: Parsers, faults: Faults, connectError: Option<string>, t0: Table)
    ensures var r := RunCli(arg, fileExists, file, products, parsers, faults, connectError, t0);
            && (arg.None? || arg.value == "" ==> r == (Exited(UsageMessage), t0))
            && (arg.Some? && arg.value != "" && !fileExists ==> r == (Exited(NotFoundFileMessage(arg.value)), t0))
  {
  }

  /**
   * Past the file checks, the command line exits exactly when the extension selects no
   * format, and then before reading the file or touching the store; every other path prints
   * a summary or crashes.
   */
  lemma CliExitsOnlyOnUnsupportedFormat(format: Option<Format>, file: FileContent, products: map<string, int>,
                                        parsers: Parsers, faults: Faults, connectError: Option<string>, t0: Table)
    ensures var r := CliImport(format, file, products, parsers, faults, connectError, t0);
            r.0.Exited? <==> format.None?
    ensures var r := CliImport(format, file, products, parsers, faults, connectError, t0);
            r.0.Exited? ==> r == (Exited(UnsupportedCliMessage), t0)
  {
  }

  /**
   * A printed summary accounts for at most every row, and for every row when it lists no
   * batch error; each of its error entries is well-formed.
   */
  lemma CliSummaryAccountsForRows(arg: Option<string>, fileExists: bool, file: FileContent, products: map<string, int>,
                                  parsers: Parsers, faults: Faults, connectError: Option<string>, t0: Table)
    ensures var r := RunCli(arg, fileExists, file, products, parsers, faults, connectError, t0);
            r.0.Printed? ==>
              var rows := RowsOf(FormatOf(arg.value).value, file).value;
              var s := r.0.summary;
              && s.imported + s.skipped <= |rows|
              && (NoBatchErrors(s.errors) ==> s.imported + s.skipped == |rows|)
              && EntriesOk(Env(rows, RowCheck(Script(products), rows, parsers, faults), faults), s.errors)
  {
    var r := RunCli(arg, fileExists, file, products, parsers, faults, connectError, t0);
    if r.0.Printed? {
      var rows := RowsOf(FormatOf(arg.value).value, file).value;
      ImportCounts(Env(rows, RowCheck(Script(products), rows, parsers, faults), faults), t0);
    }
  }
}
