/**
 * Row validation (`validateRow`) of both import copies, and the command-line copy's product
 * lookup. `new Date(…).toISOString()` and `parseFloat` are given as oracles.
 */
module Validator {
  import opened Wrappers
  import opened Text
  import opened SheetParser
  import opened SalesStore

  /**
   * The JavaScript parsers validation calls: `toIsoString(s)` is `new Date(s).toISOString()`
   * (`None` for an Invalid Date), `parseFloat(s)` is `parseFloat(s)` (`None` for NaN).
   */
  datatype Parsers = Parsers(toIsoString: string -> Option<string>, parseFloat: string -> Option<real>)

  /** `new Date(null).toISOString()`: `null` converts to 0, the epoch. */
  const EpochIso: string := "1970-01-01T00:00:00.000Z"

  /** The column holding the product: `NombreProducto` for the command line, `Producto` over HTTP. */
  datatype ProductColumn = NombreProducto | Producto {
    function Key(): string {
      match this
      case NombreProducto => "NombreProducto"
      case Producto => "Producto"
    }
    function RequiredMessage(): string {
      match this
      case NombreProducto => "NombreProducto requerido"
      case Producto => "Producto requerido"
    }
  }

  /** The field checks of `validateRow`, in the order it runs them. */
  datatype FieldError =
    | IdClienteRequired | FechaVentaRequired | MontoRequired | ProductRequired
    | MontoInvalid | FechaVentaInvalid
  {
    /** The position of this check in the order `validateRow` runs the checks. */
    function Rank(): nat {
      match this
      case IdClienteRequired => 0
      case FechaVentaRequired => 1
      case MontoRequired => 2
      case ProductRequired => 3
      case MontoInvalid => 4
      case FechaVentaInvalid => 5
    }

    /** The message pushed for this check. */
    function Message(col: ProductColumn): string {
      match this
      case IdClienteRequired => "IdCliente requerido"
      case FechaVentaRequired => "FechaVenta requerida"
      case MontoRequired => "Monto requerido"
      case ProductRequired => col.RequiredMessage()
      case MontoInvalid => "Monto inv\U{E1}lido"
      case FechaVentaInvalid => "FechaVenta inv\U{E1}lida"
    }
  }

  /** The messages of `errs`, in order. */
  function Messages(errs: seq<FieldError>, col: ProductColumn): (ms: seq<string>)
    ensures |ms| == |errs|
    ensures forall i :: 0 <= i < |errs| ==> ms[i] == errs[i].Message(col)
  {
    seq(|errs|, i requires 0 <= i < |errs| => errs[i].Message(col))
  }

  /** `r.X ? String(r.X).trim() : null`: an absent or empty value reads as `null`. */
  function ReadField(r: Record, key: string): (f: Option<string>)
    ensures f.Some? <==> key in r && r[key] != ""
    ensures f.Some? ==> f.value == Trim(r[key])
  {
    if key in r && r[key] != "" then Some(Trim(r[key])) else None
  }

  /** `!out.X`: `null` and the empty string are both falsy. */
  predicate Missing(f: Option<string>) {
    f.None? || f.value == ""
  }

  /** The `out` object before coercion: every column read and trimmed. */
  datatype Fields = Fields(idVenta: Option<string>, idCliente: Option<string>,
                           fechaVenta: Option<string>, monto: Option<string>,
                           producto: Option<string>)

  function ReadFields(r: Record, col: ProductColumn): Fields {
    Fields(ReadField(r, "IdVenta"), ReadField(r, "IdCliente"), ReadField(r, "FechaVenta"),
           ReadField(r, "Monto"), ReadField(r, col.Key()))
  }

  /** `parseFloat(out.Monto)`, with `None` for NaN: `parseFloat(null)` and `parseFloat('')` are NaN. */
  function AmountOf(f: Fields, parsers: Parsers): Option<real> {
    if Missing(f.monto) then None else parsers.parseFloat(f.monto.value)
  }

  /**
   * `new Date(out.FechaVenta).toISOString()`, with `None` for an Invalid Date: `new Date(null)`
   * is the epoch and `new Date('')` is invalid.
   */
  function IsoDateOf(f: Fields, parsers: Parsers): Option<string> {
    match f.fechaVenta
    case None => Some(EpochIso)
    case Some(s) => if s == "" then None else parsers.toIsoString(s)
  }

  /** `isNaN(montoNum) || montoNum < 0`. */
  predicate BadAmount(f: Fields, parsers: Parsers) {
    AmountOf(f, parsers).None? || AmountOf(f, parsers).value < 0.0
  }

  /** Whether check `e` fails on the row read into `f`. */
  predicate Fails(e: FieldError, f: Fields, parsers: Parsers) {
    match e
    case IdClienteRequired => Missing(f.idCliente)
    case FechaVentaRequired => Missing(f.fechaVenta)
    case MontoRequired => Missing(f.monto)
    case ProductRequired => Missing(f.producto)
    case MontoInvalid => BadAmount(f, parsers)
    case FechaVentaInvalid => IsoDateOf(f, parsers).None?
  }

  /** Errors in the order of their checks: each comes after the one before it. */
  predicate InCheckOrder(errs: seq<FieldError>) {
    forall i :: 0 < i < |errs| ==> errs[i - 1].Rank() < errs[i].Rank()
  }

  /** `if (failed) errors.push(e)`. */
  function Pushed(errs: seq<FieldError>, failed: bool, e: FieldError): seq<FieldError> {
    if failed then errs + [e] else errs
  }

  /** `errs` holds, in order, the errors of the checks before position `n` that fail. */
  ghost predicate ChecksRun(errs: seq<FieldError>, n: nat, f: Fields, parsers: Parsers) {
    && InCheckOrder(errs)
    && (forall e :: e in errs <==> e.Rank() < n && Fails(e, f, parsers))
  }

  /** Running check `e`, the one in position `n`, after the checks before it. */
  lemma CheckRuns(errs: seq<FieldError>, n: nat, e: FieldError, failed: bool, f: Fields, parsers: Parsers)
    requires ChecksRun(errs, n, f, parsers) && e.Rank() == n && failed == Fails(e, f, parsers)
    ensures ChecksRun(Pushed(errs, failed, e), n + 1, f, parsers)
  {
    var after := Pushed(errs, failed, e);
    forall x
      ensures x in after <==> x.Rank() < n + 1 && Fails(x, f, parsers)
    {
      if x.Rank() == n {
        assert x == e;
      }
    }
    if failed && |errs| > 0 {
      assert errs[|errs| - 1] in errs;
    }
  }

  /** The errors of the four required-field checks, pushed in turn. */
  function RequiredFieldErrors(f: Fields, parsers: Parsers): (errs: seq<FieldError>)
    ensures ChecksRun(errs, 4, f, parsers)
  {
    var e0 := Pushed([], Missing(f.idCliente), IdClienteRequired);
    var e1 := Pushed(e0, Missing(f.fechaVenta), FechaVentaRequired);
    var e2 := Pushed(e1, Missing(f.monto), MontoRequired);
    var e3 := Pushed(e2, Missing(f.producto), ProductRequired);
    CheckRuns([], 0, IdClienteRequired, Missing(f.idCliente), f, parsers);
    CheckRuns(e0, 1, FechaVentaRequired, Missing(f.fechaVenta), f, parsers);
    CheckRuns(e1, 2, MontoRequired, Missing(f.monto), f, parsers);
    CheckRuns(e2, 3, ProductRequired, Missing(f.producto), f, parsers);
    e3
  }

  /**
   * The field errors of one row: the required-field errors, then the amount and date checks.
   * Every check runs, whatever the others found: each error is present exactly when its check
   * fails, and the errors keep the order of the checks.
   */
  function FieldErrors(f: Fields, parsers: Parsers): (errs: seq<FieldError>)
    ensures forall e :: e in errs <==> Fails(e, f, parsers)
    ensures InCheckOrder(errs)
  {
    var e3 := RequiredFieldErrors(f, parsers);
    var e4 := Pushed(e3, BadAmount(f, parsers), MontoInvalid);
    var e5 := Pushed(e4, IsoDateOf(f, parsers).None?, FechaVentaInvalid);
    CheckRuns(e3, 4, MontoInvalid, BadAmount(f, parsers), f, parsers);
    CheckRuns(e4, 5, FechaVentaInvalid, IsoDateOf(f, parsers).None?, f, parsers);
    e5
  }

  /**
   * The field checks of `validateRow` as it runs them: each failing check pushes its error,
   * whatever the checks before it found.
   */
  method CollectFieldErrors(f: Fields, parsers: Parsers) returns (errs: seq<FieldError>)
    ensures errs == FieldErrors(f, parsers)
  {
    errs := [];
    if Missing(f.idCliente) { errs := errs + [IdClienteRequired]; }
    if Missing(f.fechaVenta) { errs := errs + [FechaVentaRequired]; }
    if Missing(f.monto) { errs := errs + [MontoRequired]; }
    if Missing(f.producto) { errs := errs + [ProductRequired]; }
    var amount := AmountOf(f, parsers);
    if amount.None? || amount.value < 0.0 { errs := errs + [MontoInvalid]; }
    if IsoDateOf(f, parsers).None? { errs := errs + [FechaVentaInvalid]; }
  }

  /** Every required field present, a valid amount and a valid date. */
  predicate NoFieldErrorsFacts(f: Fields, parsers: Parsers) {
    && !Missing(f.idCliente) && !Missing(f.fechaVenta) && !Missing(f.monto) && !Missing(f.producto)
    && !BadAmount(f, parsers) && IsoDateOf(f, parsers).Some?
  }

  /** A row with no field errors has every required field and a valid date and amount. */
  lemma NoFieldErrors(f: Fields, parsers: Parsers)
    requires FieldErrors(f, parsers) == []
    ensures NoFieldErrorsFacts(f, parsers)
  {
    assert !Fails(IdClienteRequired, f, parsers) && !Fails(FechaVentaRequired, f, parsers);
    assert !Fails(MontoRequired, f, parsers) && !Fails(ProductRequired, f, parsers);
    assert !Fails(MontoInvalid, f, parsers) && !Fails(FechaVentaInvalid, f, parsers);
  }

  /** A row that passed validation, ready for the committer. */
  datatype Candidate = Candidate(idVenta: Option<string>, sale: Sale)

  /** The result of validating one row: a candidate, or the messages joined into its reason. */
  datatype Validation = Valid(candidate: Candidate) | Invalid(errors: seq<string>)

  /** `if (out.IdVenta)`: a non-empty trimmed `IdVenta` selects the upsert. */
  function IdVentaOf(f: Fields): (id: Option<string>)
    ensures id.Some? ==> id.value != "" && f.idVenta == id
    ensures id.None? <==> Missing(f.idVenta)
  {
    if Missing(f.idVenta) then None else f.idVenta
  }

  /** The sale a row with no field errors stands for, its date cut to `YYYY-MM-DD`. */
  function SaleOf(f: Fields, product: ProductRef, parsers: Parsers): Sale
    requires !Missing(f.idCliente) && IsoDateOf(f, parsers).Some? && AmountOf(f, parsers).Some?
  {
    Sale(f.idCliente.value, product, Prefix(IsoDateOf(f, parsers).value, 10), AmountOf(f, parsers).value)
  }

  /** The candidate built from fields with no errors holds what `ValidFields` describes. */
  lemma ValidSaleOf(f: Fields, parsers: Parsers, product: ProductRef)
    requires NoFieldErrorsFacts(f, parsers)
    ensures ValidFields(f, parsers, Candidate(IdVentaOf(f), SaleOf(f, product, parsers)))
  {
  }

  /**
   * `validateRow` of the HTTP import: the field checks only; the product is kept as the
   * trimmed `Producto` text.
   */
  function ValidateRoute(r: Record, parsers: Parsers): (v: Validation)
    ensures v.Invalid? <==> FieldErrors(ReadFields(r, Producto), parsers) != []
    ensures v.Invalid? ==> v.errors == Messages(FieldErrors(ReadFields(r, Producto), parsers), Producto)
    ensures v.Valid? ==> ValidSale(r, Producto, parsers, v.candidate)
    ensures v.Valid? ==> v.candidate.sale.product == ProductName(Trim(r["Producto"]))
  {
    var f := ReadFields(r, Producto);
    var errs := FieldErrors(f, parsers);
    if errs != [] then Invalid(Messages(errs, Producto))
    else
      NoFieldErrors(f, parsers);
      ValidSaleOf(f, parsers, ProductName(f.producto.value));
      Valid(Candidate(IdVentaOf(f), SaleOf(f, ProductName(f.producto.value), parsers)))
  }

  /**
   * What a validated candidate holds, whatever the copy: the trimmed non-empty `IdCliente`,
   * the first ten characters of the trimmed date's ISO form, the parsed non-negative amount of
   * the trimmed `Monto`, a non-empty product column, and the trimmed `IdVenta` when it is
   * non-empty.
   */
  ghost predicate ValidSale(r: Record, col: ProductColumn, parsers: Parsers, c: Candidate) {
    ValidFields(ReadFields(r, col), parsers, c)
  }

  /** `ValidSale` on the fields read from the row. */
  ghost predicate ValidFields(f: Fields, parsers: Parsers, c: Candidate) {
    && f.idCliente == Some(c.sale.cliente) && c.sale.cliente != ""
    && f.fechaVenta.Some? && f.fechaVenta.value != "" && parsers.toIsoString(f.fechaVenta.value).Some?
    && c.sale.fecha == Prefix(parsers.toIsoString(f.fechaVenta.value).value, 10)
    && f.monto.Some? && f.monto.value != "" && parsers.parseFloat(f.monto.value) == Some(c.sale.monto)
    && c.sale.monto >= 0.0
    && !Missing(f.producto)
    && c.idVenta == (if Missing(f.idVenta) then None else f.idVenta)
  }

  /** The product lookup's failure message. */
  function LookupErrorMessage(message: string): string {
    "Error buscando producto: " + message
  }

  /** The message for a product name with no match. */
  function NotFoundMessage(name: string): string {
    "Producto no encontrado: " + name
  }

  /**
   * `validateRow` of the command-line import: the field checks, then, only when they all pass,
   * the lookup of `NombreProducto` in the product table `products`. `lookupError` is the
   * message of the lookup query's exception, if it throws.
   */
  function ValidateScript(r: Record, parsers: Parsers, products: map<string, int>,
                          lookupError: Option<string>): (v: Validation)
    ensures var f := ReadFields(r, NombreProducto);
            FieldErrors(f, parsers) != [] ==>
              v == Invalid(Messages(FieldErrors(f, parsers), NombreProducto))
    ensures var f := ReadFields(r, NombreProducto);
            FieldErrors(f, parsers) == [] && lookupError.Some? ==>
              v == Invalid([LookupErrorMessage(lookupError.value)])
    ensures var f := ReadFields(r, NombreProducto);
            FieldErrors(f, parsers) == [] && lookupError.None? && f.producto.Some? && f.producto.value !in products ==>
              v == Invalid([NotFoundMessage(f.producto.value)])
    ensures v.Valid? <==> var f := ReadFields(r, NombreProducto);
              FieldErrors(f, parsers) == [] && lookupError.None? && f.producto.Some? && f.producto.value in products
    ensures v.Valid? ==> ValidSale(r, NombreProducto, parsers, v.candidate)
    ensures v.Valid? ==> v.candidate.sale.product == ProductId(products[Trim(r["NombreProducto"])])
  {
    var f := ReadFields(r, NombreProducto);
    var errs := FieldErrors(f, parsers);
    if errs != [] then Invalid(Messages(errs, NombreProducto))
    else
      NoFieldErrors(f, parsers);
      match lookupError
      case Some(m) => Invalid([LookupErrorMessage(m)])
      case None =>
        var name := f.producto.value;
        if name in products then
          ValidSaleOf(f, parsers, ProductId(products[name]));
          Valid(Candidate(IdVentaOf(f), SaleOf(f, ProductId(products[name]), parsers)))
        else Invalid([NotFoundMessage(name)])
  }

  /**
   * A missing or blank `Monto` reports both `Monto requerido` and `Monto inválido`, since
   * `parseFloat` of it is NaN.
   */
  lemma MissingMontoReportsBoth(r: Record, col: ProductColumn, parsers: Parsers)
    requires "Monto" !in r || Trim(r["Monto"]) == ""
    ensures var errs := FieldErrors(ReadFields(r, col), parsers);
            MontoRequired in errs && MontoInvalid in errs
  {
    var f := ReadFields(r, col);
    assert Missing(f.monto);
    assert Fails(MontoRequired, f, parsers) && Fails(MontoInvalid, f, parsers);
  }

  /** A negative amount reports `Monto inválido` only. */
  lemma NegativeMontoInvalid(r: Record, col: ProductColumn, parsers: Parsers)
    requires "Monto" in r && Trim(r["Monto"]) != ""
    requires parsers.parseFloat(Trim(r["Monto"])).Some? && parsers.parseFloat(Trim(r["Monto"])).value < 0.0
    ensures var errs := FieldErrors(ReadFields(r, col), parsers);
            MontoInvalid in errs && MontoRequired !in errs
  {
    var f := ReadFields(r, col);
    assert r["Monto"] != "";
    assert f.monto == Some(Trim(r["Monto"]));
    assert AmountOf(f, parsers) == parsers.parseFloat(Trim(r["Monto"]));
    assert Fails(MontoInvalid, f, parsers) && !Fails(MontoRequired, f, parsers);
  }

  /**
   * An absent `FechaVenta` reports only `FechaVenta requerida`: `new Date(null)` is a valid
   * date. A blank one (white space only) reports both messages.
   */
  lemma MissingFechaVentaMessages(r: Record, col: ProductColumn, parsers: Parsers)
    ensures var errs := FieldErrors(ReadFields(r, col), parsers);
            ("FechaVenta" !in r || r["FechaVenta"] == "") ==>
              FechaVentaRequired in errs && FechaVentaInvalid !in errs
    ensures var errs := FieldErrors(ReadFields(r, col), parsers);
            ("FechaVenta" in r && r["FechaVenta"] != "" && Trim(r["FechaVenta"]) == "") ==>
              FechaVentaRequired in errs && FechaVentaInvalid in errs
  {
    var f := ReadFields(r, col);
    if "FechaVenta" !in r || r["FechaVenta"] == "" {
      assert f.fechaVenta.None?;
      assert Fails(FechaVentaRequired, f, parsers) && !Fails(FechaVentaInvalid, f, parsers);
    }
    if "FechaVenta" in r && r["FechaVenta"] != "" && Trim(r["FechaVenta"]) == "" {
      assert f.fechaVenta == Some("");
      assert Fails(FechaVentaRequired, f, parsers) && Fails(FechaVentaInvalid, f, parsers);
    }
  }

  /**
   * Over HTTP, a row with neither `IdCliente` nor `Monto` whose other fields are valid is
   * rejected with three messages, in check order, and its logged reason joins all three.
   */
  lemma MissingClienteAndMontoReason(r: Record, parsers: Parsers)
    requires "IdCliente" !in r || Trim(r["IdCliente"]) == ""
    requires "Monto" !in r || Trim(r["Monto"]) == ""
    requires "Producto" in r && Trim(r["Producto"]) != ""
    requires "FechaVenta" in r && Trim(r["FechaVenta"]) != "" && parsers.toIsoString(Trim(r["FechaVenta"])).Some?
    ensures ValidateRoute(r, parsers) == Invalid(["IdCliente requerido", "Monto requerido", "Monto inv\U{E1}lido"])
    ensures Join(ValidateRoute(r, parsers).errors, "; ")
              == "IdCliente requerido" + "; " + "Monto requerido" + "; " + "Monto inv\U{E1}lido"
  {
    var errs := [IdClienteRequired, MontoRequired, MontoInvalid];
    MissingClienteAndMontoErrors(ReadFields(r, Producto), parsers);
    ThreeMessagesJoined(errs);
  }

  /** The field checks that fail when only the client and the amount are missing. */
  lemma MissingClienteAndMontoErrors(f: Fields, parsers: Parsers)
    requires Missing(f.idCliente) && Missing(f.monto)
    requires !Missing(f.fechaVenta) && !Missing(f.producto) && IsoDateOf(f, parsers).Some?
    ensures FieldErrors(f, parsers) == [IdClienteRequired, MontoRequired, MontoInvalid]
  {
    assert RequiredFieldErrors(f, parsers) == [IdClienteRequired, MontoRequired];
  }

  /** The messages of the missing client and amount, and their join. */
  lemma ThreeMessagesJoined(errs: seq<FieldError>)
    requires errs == [IdClienteRequired, MontoRequired, MontoInvalid]
    ensures Messages(errs, Producto) == ["IdCliente requerido", "Monto requerido", "Monto inv\U{E1}lido"]
    ensures Join(Messages(errs, Producto), "; ")
              == "IdCliente requerido" + "; " + "Monto requerido" + "; " + "Monto inv\U{E1}lido"
  {
    var ms := Messages(errs, Producto);
    assert ms == [ms[0], ms[1], ms[2]];
    assert Join(ms[2..], "; ") == ms[2];
    assert Join(ms[1..], "; ") == ms[1] + "; " + ms[2] by { assert ms[1..][1..] == ms[2..]; }
  }

  /**
   * The product lookup runs only after every field check passed: a row with a field error is
   * reported with its field messages whatever the product table holds or the lookup would do.
   */
  lemma LookupOnlyAfterFieldChecks(r: Record, parsers: Parsers, products1: map<string, int>,
                                   products2: map<string, int>, e1: Option<string>, e2: Option<string>)
    requires FieldErrors(ReadFields(r, NombreProducto), parsers) != []
    ensures ValidateScript(r, parsers, products1, e1) == ValidateScript(r, parsers, products2, e2)
  {
  }
}
