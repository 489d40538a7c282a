/**
 * The `/reporte` query builder: the optional query-string filters become `AND … ?` clauses
 * of one SQL text over `vw_reporte_crm` plus the positional parameter list, `groupBy` picks
 * the product columns and the GROUP BY, and the response echoes the filters, `'todos'`
 * standing for an absent one. Running the query and the `totales` arithmetic are not modelled.
 */
module Report {
  import opened Wrappers

  /**
   * The query-string fields the handler destructures; `None` is an absent (undefined) field.
   * Each value is the string Express parsed.
   */
  datatype ReportRequest = ReportRequest(
    fechaInicio: Option<string>,
    fechaFin: Option<string>,
    ejecutivoId: Option<string>,
    productoId: Option<string>,
    groupBy: Option<string>)

  /** The four filters, in the order the handler tests them. */
  datatype Filter = FechaInicio | FechaFin | EjecutivoId | ProductoId {
    /** The filter's position among the `if`s. */
    function Rank(): nat {
      match this
      case FechaInicio => 0
      case FechaFin => 1
      case EjecutivoId => 2
      case ProductoId => 3
    }

    /** The comparison its clause makes. */
    function Test(): string {
      match this
      case FechaInicio => "FechaVisita >="
      case FechaFin => "FechaVisita <="
      case EjecutivoId => "IdEjecutivo ="
      case ProductoId => "IdProducto ="
    }

    /** The clause its `if` appends, e.g. ` AND FechaVisita >= ?`. */
    function Condition(): string {
      " AND " + Test() + " ?"
    }
  }

  /** The request's value for filter `f`. */
  function ValueOf(req: ReportRequest, f: Filter): Option<string> {
    match f
    case FechaInicio => req.fechaInicio
    case FechaFin => req.fechaFin
    case EjecutivoId => req.ejecutivoId
    case ProductoId => req.productoId
  }

  /** JavaScript truthiness of a query value: present and not the empty string. */
  predicate Given(v: Option<string>) {
    v.Some? && v.value != ""
  }

  /** What filter `f`'s `if` appends to the query: its clause when the filter is given. */
  function ClauseOf(req: ReportRequest, f: Filter): string {
    if Given(ValueOf(req, f)) then f.Condition() else ""
  }

  /** What filter `f`'s `if` pushes onto `params`: its value when the filter is given. */
  function ParamOf(req: ReportRequest, f: Filter): seq<string> {
    if Given(ValueOf(req, f)) then [ValueOf(req, f).value] else []
  }

  /** The filter itself when its `if` is taken. */
  function Pick(req: ReportRequest, f: Filter): seq<Filter> {
    if Given(ValueOf(req, f)) then [f] else []
  }

  /** The filters whose `if` appends a clause, in the order of the `if`s. */
  function Active(req: ReportRequest): seq<Filter> {
    Pick(req, FechaInicio) + Pick(req, FechaFin) + Pick(req, EjecutivoId) + Pick(req, ProductoId)
  }

  /** The `groupBy` in effect: the destructuring default applies only to an absent field. */
  function EffectiveGroupBy(req: ReportRequest): string {
    if req.groupBy.None? then "ejecutivo" else req.groupBy.value
  }

  /** A line break and the indentation of the template's column lines. */
  const Indent: string := "\n                "

  /** A line break and the indentation of the template's FROM and WHERE lines. */
  const ClauseIndent: string := "\n            "

  function Aliased(expr: string, alias: string): string {
    expr + " as " + alias
  }

  function Sum(column: string): string {
    "SUM(" + column + ")"
  }

  function Average(column: string): string {
    "ROUND(AVG(" + column + "), 2)"
  }

  /** The extra SELECT columns of the `${…}` in the template. */
  function ProductColumns(groupBy: string): string {
    if groupBy == "producto" then "IdProducto, NombreProducto," else ""
  }

  /** The aggregate columns of the template, each ending its line. */
  const TotalClientes: string := Aliased("COUNT(DISTINCT IdCliente)", "TotalClientes") + ","
  const TotalVisitas: string := Aliased(Sum("TotalVisitas"), "TotalVisitas") + ","
  const TotalVentas: string := Aliased(Sum("TotalVentas"), "TotalVentas") + ","
  const MontoTotalVentas: string := Aliased(Sum("MontoTotalVentas"), "MontoTotalVentas") + ","
  const TasaConversion: string := Aliased(Average("TasaConversion"), "TasaConversion") + ","
  const PromedioVentasPorCliente: string :=
    Aliased(Average("PromedioVentasPorCliente"), "PromedioVentasPorCliente") + ","
  const TicketPromedio: string := Aliased(Average("TicketPromedio"), "TicketPromedio") + ","
  const VentasPorCliente: string := Aliased(Average("VentasPorCliente"), "VentasPorCliente")

  /** The template's column lines, one per line of the literal. */
  function SelectList(groupBy: string): seq<string> {
    [ "IdEjecutivo,", "NombreEjecutivo,", ProductColumns(groupBy),
      TotalClientes, TotalVisitas, TotalVentas, MontoTotalVentas,
      TasaConversion, PromedioVentasPorCliente, TicketPromedio, VentasPorCliente ]
  }

  /** Each line on a line of its own, indented. */
  function Lines(lines: seq<string>): string {
    if lines == [] then "" else Lines(lines[..|lines| - 1]) + Indent + lines[|lines| - 1]
  }

  /** The template literal the query starts from, line breaks and indentation included. */
  function BaseQuery(groupBy: string): string {
    "SELECT " + Lines(SelectList(groupBy)) + ClauseIndent + "FROM vw_reporte_crm" + ClauseIndent + "WHERE 1=1"
  }

  const ExecutiveColumns: string := "IdEjecutivo, NombreEjecutivo"

  function GroupByClause(groupBy: string): string {
    " GROUP BY " + ExecutiveColumns + (if groupBy == "producto" then ", IdProducto, NombreProducto" else "")
  }

  const OrderByClause: string := " ORDER BY MontoTotalVentas DESC"

  /** The filter clauses, in the order of the `if`s. */
  function Conditions(req: ReportRequest): string {
    ClauseOf(req, FechaInicio) + ClauseOf(req, FechaFin) + ClauseOf(req, EjecutivoId) + ClauseOf(req, ProductoId)
  }

  /** The SQL text the handler executes. */
  function ReportSql(req: ReportRequest): string {
    var g := EffectiveGroupBy(req);
    BaseQuery(g) + Conditions(req) + GroupByClause(g) + OrderByClause
  }

  /** The positional parameters the handler passes with it. */
  function ReportParams(req: ReportRequest): seq<string> {
    ParamOf(req, FechaInicio) + ParamOf(req, FechaFin) + ParamOf(req, EjecutivoId) + ParamOf(req, ProductoId)
  }

  /** The query construction of the handler: successive `query +=` and `params.push`. */
  method BuildReportQuery(req: ReportRequest) returns (query: string, params: seq<string>)
    ensures query == ReportSql(req) && params == ReportParams(req)
  {
    var groupBy := if req.groupBy.None? then "ejecutivo" else req.groupBy.value;
    var base := BaseQuery(groupBy);
    query, params := base, [];
    query, params := ApplyFilter(req, FechaInicio, query, params);
    assert [] + ParamOf(req, FechaInicio) == ParamOf(req, FechaInicio);
    ghost var conds := ClauseOf(req, FechaInicio);
    query, params := ApplyFilter(req, FechaFin, query, params);
    Associative(base, conds, ClauseOf(req, FechaFin));
    conds := conds + ClauseOf(req, FechaFin);
    query, params := ApplyFilter(req, EjecutivoId, query, params);
    Associative(base, conds, ClauseOf(req, EjecutivoId));
    conds := conds + ClauseOf(req, EjecutivoId);
    query, params := ApplyFilter(req, ProductoId, query, params);
    Associative(base, conds, ClauseOf(req, ProductoId));
    conds := conds + ClauseOf(req, ProductoId);
    query := query + GroupByClause(groupBy);
    query := query + OrderByClause;
  }

  /** One filter's `if (value) { query += clause; params.push(value); }`. */
  method ApplyFilter(req: ReportRequest, f: Filter, query: string, params: seq<string>)
      returns (query': string, params': seq<string>)
    ensures query' == query + ClauseOf(req, f) && params' == params + ParamOf(req, f)
  {
    query', params' := query, params;
    var value := ValueOf(req, f);
    if value.Some? && value.value != "" {
      query' := query' + f.Condition();
      params' := params' + [value.value];
    }
  }

  /**
   * Concatenation regroups freely. Stated once so that the long SQL literals stay folded while
   * the query's pieces are regrouped.
   */
  lemma Associative(a: string, b: string, c: string)
    ensures (a + b) + c == a + (b + c)
  {
  }

  /** The number of `?` placeholders in an SQL text (none of these texts quotes a `?`). */
  function Placeholders(sql: string): nat {
    if sql == [] then 0
    else Placeholders(sql[..|sql| - 1]) + (if sql[|sql| - 1] == '?' then 1 else 0)
  }

  lemma {:induction false} PlaceholdersAppend(a: string, b: string)
    ensures Placeholders(a + b) == Placeholders(a) + Placeholders(b)
    decreases |b|
  {
    if b == [] {
      assert a + b == a;
    } else {
      PlaceholdersAppend(a, b[..|b| - 1]);
      assert (a + b)[..|a + b| - 1] == a + b[..|b| - 1];
      assert (a + b)[|a + b| - 1] == b[|b| - 1];
    }
  }

  lemma {:induction false} NoPlaceholders(s: string)
    requires '?' !in s
    ensures Placeholders(s) == 0
    decreases |s|
  {
    if s != [] {
      NoPlaceholders(s[..|s| - 1]);
    }
  }

  lemma TestHasNoPlaceholder(f: Filter)
    ensures '?' !in " AND " + f.Test() + " "
  {
    assert '?' !in " AND " && '?' !in " ";
    match f
    case FechaInicio => assert '?' !in "FechaVisita >=";
    case FechaFin => assert '?' !in "FechaVisita <=";
    case EjecutivoId => assert '?' !in "IdEjecutivo =";
    case ProductoId => assert '?' !in "IdProducto =";
  }

  /** A filter's `if` appends as many placeholders as it pushes parameters: one, or none. */
  lemma ClausePlaceholders(req: ReportRequest, f: Filter)
    ensures Placeholders(ClauseOf(req, f)) == |ParamOf(req, f)| <= 1
  {
    if Given(ValueOf(req, f)) {
      var before := " AND " + f.Test() + " ";
      TestHasNoPlaceholder(f);
      NoPlaceholders(before);
      Associative(" AND " + f.Test(), " ", "?");
      assert f.Condition() == before + "?";
      PlaceholdersAppend(before, "?");
      assert Placeholders("?") == 1;
    }
  }

  lemma SumColumnsHaveNoPlaceholder()
    ensures '?' !in TotalVisitas && '?' !in TotalVentas && '?' !in MontoTotalVentas
  {
    assert '?' !in "SUM(" && '?' !in ")" && '?' !in " as " && '?' !in ",";
    assert '?' !in "TotalVisitas";
    assert '?' !in "TotalVentas";
    assert '?' !in "MontoTotalVentas";
  }

  lemma AverageColumnsHaveNoPlaceholder()
    ensures '?' !in TasaConversion && '?' !in PromedioVentasPorCliente
    ensures '?' !in TicketPromedio && '?' !in VentasPorCliente
  {
    assert '?' !in "ROUND(AVG(" && '?' !in "), 2)" && '?' !in " as " && '?' !in ",";
    assert '?' !in "TasaConversion";
    assert '?' !in "PromedioVentasPorCliente";
    assert '?' !in "TicketPromedio";
    assert '?' !in "VentasPorCliente";
  }

  lemma ColumnLinesHaveNoPlaceholder(groupBy: string)
    ensures forall line :: line in SelectList(groupBy) ==> '?' !in line
  {
    SumColumnsHaveNoPlaceholder();
    AverageColumnsHaveNoPlaceholder();
    assert '?' !in TotalClientes by {
      assert '?' !in "COUNT(DISTINCT IdCliente)" && '?' !in " as " && '?' !in "TotalClientes,";
    }
    assert '?' !in "IdEjecutivo," && '?' !in "NombreEjecutivo," && '?' !in ProductColumns(groupBy);
  }

  lemma {:induction false} LinesHaveNoPlaceholder(lines: seq<string>)
    requires forall line :: line in lines ==> '?' !in line
    ensures '?' !in Lines(lines)
  {
    if lines != [] {
      LinesHaveNoPlaceholder(lines[..|lines| - 1]);
      assert '?' !in Indent;
    }
  }

  /** The template holds no placeholder. */
  lemma TemplateHasNoPlaceholder(groupBy: string)
    ensures '?' !in BaseQuery(groupBy)
  {
    ColumnLinesHaveNoPlaceholder(groupBy);
    LinesHaveNoPlaceholder(SelectList(groupBy));
    assert '?' !in "SELECT " && '?' !in ClauseIndent;
    assert '?' !in "FROM vw_reporte_crm";
    assert '?' !in "WHERE 1=1";
  }

  /** Neither the GROUP BY nor the ORDER BY holds a placeholder. */
  lemma GroupAndOrderHaveNoPlaceholder(groupBy: string)
    ensures '?' !in GroupByClause(groupBy) && '?' !in OrderByClause
  {
    assert '?' !in " GROUP BY " && '?' !in ExecutiveColumns;
    assert '?' !in ", IdProducto, NombreProducto";
  }

  /**
   * The placeholders of the executed SQL and the parameter list always agree in number: the
   * template, the GROUP BY and the ORDER BY hold none, and each filter adds one of each or
   * nothing.
   */
  lemma PlaceholdersMatchParams(req: ReportRequest)
    ensures Placeholders(ReportSql(req)) == |ReportParams(req)| <= 4
  {
    var g := EffectiveGroupBy(req);
    var c1, c2, c3, c4 := ClauseOf(req, FechaInicio), ClauseOf(req, FechaFin), ClauseOf(req, EjecutivoId), ClauseOf(req, ProductoId);
    ClausePlaceholders(req, FechaInicio);
    ClausePlaceholders(req, FechaFin);
    ClausePlaceholders(req, EjecutivoId);
    ClausePlaceholders(req, ProductoId);
    PlaceholdersAppend(c1, c2);
    PlaceholdersAppend(c1 + c2, c3);
    PlaceholdersAppend(c1 + c2 + c3, c4);
    var base, conds := BaseQuery(g), Conditions(req);
    TemplateHasNoPlaceholder(g);
    GroupAndOrderHaveNoPlaceholder(g);
    NoPlaceholders(base);
    NoPlaceholders(GroupByClause(g));
    NoPlaceholders(OrderByClause);
    PlaceholdersAppend(base, conds);
    PlaceholdersAppend(base + conds, GroupByClause(g));
    PlaceholdersAppend(base + conds + GroupByClause(g), OrderByClause);
  }

  /** `params[i]` is the value of the filter behind the `i`-th clause. */
  ghost predicate Aligned(req: ReportRequest, fs: seq<Filter>, ps: seq<string>) {
    |ps| == |fs| && forall i :: 0 <= i < |fs| ==> Given(ValueOf(req, fs[i])) && ps[i] == ValueOf(req, fs[i]).value
  }

  lemma AlignedConcat(req: ReportRequest, a: seq<Filter>, pa: seq<string>, b: seq<Filter>, pb: seq<string>)
    requires Aligned(req, a, pa) && Aligned(req, b, pb)
    ensures Aligned(req, a + b, pa + pb)
  {
    forall i | 0 <= i < |a + b|
      ensures Given(ValueOf(req, (a + b)[i])) && (pa + pb)[i] == ValueOf(req, (a + b)[i]).value
    {
      if i >= |a| {
        assert (a + b)[i] == b[i - |a|] && (pa + pb)[i] == pb[i - |a|];
      }
    }
  }

  /** The filters' ranks strictly increase along `fs`. */
  ghost predicate Ascending(fs: seq<Filter>) {
    forall i, j :: 0 <= i < j < |fs| ==> fs[i].Rank() < fs[j].Rank()
  }

  lemma AscendingConcat(a: seq<Filter>, b: seq<Filter>, bound: nat)
    requires Ascending(a) && Ascending(b)
    requires forall f :: f in a ==> f.Rank() < bound
    requires forall f :: f in b ==> f.Rank() >= bound
    ensures Ascending(a + b)
  {
    forall i, j | 0 <= i < j < |a + b|
      ensures (a + b)[i].Rank() < (a + b)[j].Rank()
    {
      if j >= |a| {
        assert (a + b)[j] == b[j - |a|];
        if i < |a| {
          assert (a + b)[i] == a[i];
        } else {
          assert (a + b)[i] == b[i - |a|];
        }
      }
    }
  }

  /**
   * Each non-empty filter appends one clause and nothing else does: a filter has a clause
   * exactly when it is given, and the clauses follow the fixed order fechaInicio, fechaFin,
   * ejecutivoId, productoId.
   */
  lemma ActiveFilters(req: ReportRequest)
    ensures forall f :: f in Active(req) <==> Given(ValueOf(req, f))
    ensures Ascending(Active(req))
  {
    var p1, p2, p3, p4 := Pick(req, FechaInicio), Pick(req, FechaFin), Pick(req, EjecutivoId), Pick(req, ProductoId);
    AscendingConcat(p1, p2, 1);
    AscendingConcat(p1 + p2, p3, 2);
    AscendingConcat(p1 + p2 + p3, p4, 3);
    forall f
      ensures f in Active(req) <==> Given(ValueOf(req, f))
    {
      ActiveContains(req, f);
    }
  }

  /** Filter `f` is active exactly when it is given. */
  lemma ActiveContains(req: ReportRequest, f: Filter)
    ensures f in Active(req) <==> Given(ValueOf(req, f))
  {
    var p1, p2, p3, p4 := Pick(req, FechaInicio), Pick(req, FechaFin), Pick(req, EjecutivoId), Pick(req, ProductoId);
    assert f in Active(req) <==> f in p1 || f in p2 || f in p3 || f in p4;
  }

  /** The parameters are the given filters' values, in the order of their clauses. */
  lemma ParamsFollowClauses(req: ReportRequest)
    ensures Aligned(req, Active(req), ReportParams(req))
  {
    var p1, p2, p3, p4 := Pick(req, FechaInicio), Pick(req, FechaFin), Pick(req, EjecutivoId), Pick(req, ProductoId);
    var v1, v2, v3, v4 := ParamOf(req, FechaInicio), ParamOf(req, FechaFin), ParamOf(req, EjecutivoId), ParamOf(req, ProductoId);
    AlignedConcat(req, p1, v1, p2, v2);
    AlignedConcat(req, p1 + p2, v1 + v2, p3, v3);
    AlignedConcat(req, p1 + p2 + p3, v1 + v2 + v3, p4, v4);
  }

  /** The request without filter `f`. */
  function Without(req: ReportRequest, f: Filter): (r: ReportRequest)
    ensures ValueOf(r, f).None?
  {
    match f
    case FechaInicio => req.(fechaInicio := None)
    case FechaFin => req.(fechaFin := None)
    case EjecutivoId => req.(ejecutivoId := None)
    case ProductoId => req.(productoId := None)
  }

  /**
   * An absent or empty filter adds neither a clause nor a parameter: the request runs the
   * same query, with the same parameters, as one without the field.
   */
  lemma AbsentFilterAddsNothing(req: ReportRequest, f: Filter)
    requires !Given(ValueOf(req, f))
    ensures ReportSql(req) == ReportSql(Without(req, f)) && ReportParams(req) == ReportParams(Without(req, f))
  {
    var r := Without(req, f);
    assert forall g :: ClauseOf(r, g) == ClauseOf(req, g) && ParamOf(r, g) == ParamOf(req, g);
    assert EffectiveGroupBy(r) == EffectiveGroupBy(req);
  }

  /** A given filter adds exactly one placeholder and one parameter. */
  lemma GivenFilterAddsOne(req: ReportRequest, f: Filter)
    requires Given(ValueOf(req, f))
    ensures Placeholders(ReportSql(req)) == Placeholders(ReportSql(Without(req, f))) + 1
    ensures |ReportParams(req)| == |ReportParams(Without(req, f))| + 1
  {
    var r := Without(req, f);
    assert |ReportParams(req)| == |ParamOf(req, FechaInicio)| + |ParamOf(req, FechaFin)| + |ParamOf(req, EjecutivoId)| + |ParamOf(req, ProductoId)|;
    assert |ReportParams(r)| == |ParamOf(r, FechaInicio)| + |ParamOf(r, FechaFin)| + |ParamOf(r, EjecutivoId)| + |ParamOf(r, ProductoId)|;
    PlaceholdersMatchParams(req);
    PlaceholdersMatchParams(r);
  }

  /**
   * `groupBy` defaults to `'ejecutivo'`, and only `'producto'` changes the query: it adds the
   * product columns to the SELECT list and to the GROUP BY; any other value, the empty string
   * included, selects and groups by the executive alone, as the default does.
   */
  lemma GroupByChoice(req: ReportRequest)
    ensures req.groupBy.None? ==> EffectiveGroupBy(req) == "ejecutivo"
    ensures EffectiveGroupBy(req) != "producto" ==> ReportSql(req) == ReportSql(req.(groupBy := None))
    ensures var g := EffectiveGroupBy(req);
            g == "producto" ==>
              && SelectList(g)[2] == "IdProducto, NombreProducto,"
              && GroupByClause(g) == GroupByClause("ejecutivo") + ", IdProducto, NombreProducto"
  {
    var d := req.(groupBy := None);
    assert Conditions(d) == Conditions(req) by {
      assert forall f :: ClauseOf(d, f) == ClauseOf(req, f);
    }
    assert (" GROUP BY " + ExecutiveColumns) + "" == " GROUP BY " + ExecutiveColumns;
  }

  /**
   * The template comes first and `ORDER BY MontoTotalVentas DESC` last: every filter clause
   * and the GROUP BY lie between the two.
   */
  lemma OrderByLast(req: ReportRequest)
    ensures var sql := ReportSql(req);
            && BaseQuery(EffectiveGroupBy(req)) <= sql
            && |sql| >= |OrderByClause| && sql[|sql| - |OrderByClause|..] == OrderByClause
  {
    var g := EffectiveGroupBy(req);
    var front := BaseQuery(g) + Conditions(req) + GroupByClause(g);
    assert ReportSql(req) == front + OrderByClause;
    assert (front + OrderByClause)[|front|..] == OrderByClause;
    Associative(BaseQuery(g), Conditions(req), GroupByClause(g));
    Associative(BaseQuery(g), Conditions(req) + GroupByClause(g), OrderByClause);
  }

  /** The `filtros` object of the response. */
  datatype Filtros = Filtros(
    fechaInicio: string,
    fechaFin: string,
    ejecutivoId: string,
    productoId: string,
    agrupadoPor: string)
  {
    /** The echoed value of filter `f`. */
    function Echoed(f: Filter): string {
      match f
      case FechaInicio => fechaInicio
      case FechaFin => fechaFin
      case EjecutivoId => ejecutivoId
      case ProductoId => productoId
    }
  }

  /** `value || 'todos'`. */
  function OrTodos(v: Option<string>): string {
    if Given(v) then v.value else "todos"
  }

  /** The echo of the filters in the response. */
  function EchoFilters(req: ReportRequest): Filtros {
    Filtros(OrTodos(req.fechaInicio), OrTodos(req.fechaFin), OrTodos(req.ejecutivoId), OrTodos(req.productoId),
            EffectiveGroupBy(req))
  }

  /**
   * The echo shows `'todos'` for every filter that added no clause and the bound value for
   * every filter that did, and reports the grouping in effect.
   */
  lemma EchoMatchesQuery(req: ReportRequest)
    ensures forall f :: EchoFilters(req).Echoed(f) == if f in Active(req) then ValueOf(req, f).value else "todos"
    ensures EchoFilters(req).agrupadoPor == EffectiveGroupBy(req)
    ensures req.groupBy.None? ==> EchoFilters(req).agrupadoPor == "ejecutivo"
  {
    forall f
      ensures EchoFilters(req).Echoed(f) == if f in Active(req) then ValueOf(req, f).value else "todos"
    {
      ActiveContains(req, f);
      assert EchoFilters(req).Echoed(f) == OrTodos(ValueOf(req, f));
    }
  }

  /** Every value the echo shows for a filter with a clause is a bound parameter. */
  lemma EchoedValuesAreBound(req: ReportRequest, f: Filter)
    requires f in Active(req)
    ensures EchoFilters(req).Echoed(f) in ReportParams(req)
  {
    EchoMatchesQuery(req);
    ParamsFollowClauses(req);
    var i :| 0 <= i < |Active(req)| && Active(req)[i] == f;
    assert ReportParams(req)[i] == ValueOf(req, f).value;
  }
}
