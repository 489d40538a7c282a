/**
 * Row zipping of the spreadsheet reader (`parseXLSX`): the first worksheet's row 1 gives the
 * column headers and every other row becomes a header→text record. Reading the workbook file
 * is not modelled; the rows ExcelJS visits are the input.
 */
module SheetParser {
  import opened Wrappers
  import opened Text

  /** One input row: column header → cell text (the CSV and sheet readers both produce these). */
  type Record = map<string, string>

  /**
   * A worksheet row as `eachRow` visits it: its 1-based row number and `row.values.slice(1)`,
   * one entry per column, `None` for an empty (undefined) cell and `Some(t)` for `String(value)`.
   */
  datatype SheetRow = SheetRow(number: nat, values: seq<Option<string>>)

  /**
   * The trimmed header names of a header row; `forEach` skips empty cells, so the names of the
   * present cells close up, in column order. With `HeaderNamesAppend`, the singleton case below
   * determines the result on every row.
   */
  function HeaderNames(values: seq<Option<string>>): (h: seq<string>)
    ensures |h| <= |values|
    ensures forall i :: 0 <= i < |values| && values[i].Some? ==> Trim(values[i].value) in h
    ensures |values| == 1 ==> h == (if values[0].Some? then [Trim(values[0].value)] else [])
  {
    if values == [] then []
    else
      var rest := HeaderNames(values[..|values| - 1]);
      assert forall i :: 0 <= i < |values| - 1 ==> values[..|values| - 1][i] == values[i];
      match values[|values| - 1]
      case None => rest
      case Some(t) => rest + [Trim(t)]
  }

  /** The names of two stretches of cells are the names of the first, then those of the second. */
  lemma {:induction false} HeaderNamesAppend(a: seq<Option<string>>, b: seq<Option<string>>)
    ensures HeaderNames(a + b) == HeaderNames(a) + HeaderNames(b)
    decreases |b|
  {
    if b == [] {
      assert a + b == a;
    } else {
      var init := b[..|b| - 1];
      assert (a + b)[..|a + b| - 1] == a + init;
      assert (a + b)[|a + b| - 1] == b[|b| - 1];
      HeaderNamesAppend(a, init);
    }
  }

  /** A header row without empty cells gives one name per column, column `i`'s trimmed text. */
  lemma {:induction false} HeaderNamesNoHoles(values: seq<Option<string>>)
    requires forall i :: 0 <= i < |values| ==> values[i].Some?
    ensures var h := HeaderNames(values);
            |h| == |values| && forall i :: 0 <= i < |values| ==> h[i] == Trim(values[i].value)
  {
    if values != [] {
      var last := |values| - 1;
      var init := values[..last];
      forall i | 0 <= i < |init|
        ensures init[i].Some?
      {
        assert init[i] == values[i];
      }
      HeaderNamesNoHoles(init);
      NamesAfterLastCell(values);
    }
  }

  /** In a row without empty cells, the last cell adds its trimmed text to the names of the others. */
  lemma NamesAfterLastCell(values: seq<Option<string>>)
    requires values != [] && forall i :: 0 <= i < |values| ==> values[i].Some?
    requires var init := values[..|values| - 1];
             var h0 := HeaderNames(init);
             |h0| == |init| && forall i :: 0 <= i < |init| ==> h0[i] == Trim(init[i].value)
    ensures var h := HeaderNames(values);
            |h| == |values| && forall i :: 0 <= i < |values| ==> h[i] == Trim(values[i].value)
  {
    var last := |values| - 1;
    var init := values[..last];
    var h0 := HeaderNames(init);
    var h := HeaderNames(values);
    assert h == h0 + [Trim(values[last].value)];
    forall i | 0 <= i < |values|
      ensures h[i] == Trim(values[i].value)
    {
      if i < last {
        assert h[i] == h0[i] && init[i] == values[i];
      }
    }
  }

  /** The text of column `i`: the trimmed cell, or `''` when the cell is empty or missing. */
  function Cell(values: seq<Option<string>>, i: nat): string {
    if i < |values| && values[i].Some? then Trim(values[i].value) else ""
  }

  /**
   * The record `headers.forEach((h, i) => obj[h] = …)` builds: one key per header, and a
   * repeated header keeps the cell of its last column.
   */
  function Zip(headers: seq<string>, values: seq<Option<string>>): (r: Record)
    ensures r.Keys == set h | h in headers
  {
    if headers == [] then map[]
    else
      var last := |headers| - 1;
      var r := Zip(headers[..last], values)[headers[last] := Cell(values, last)];
      assert forall h :: h in headers <==> h in headers[..last] || h == headers[last];
      r
  }

  /** A header that no later column repeats maps to its own column's text. */
  lemma {:induction false} ZipAt(headers: seq<string>, values: seq<Option<string>>, i: nat)
    requires i < |headers|
    requires forall j :: i < j < |headers| ==> headers[j] != headers[i]
    ensures Zip(headers, values)[headers[i]] == Cell(values, i)
    decreases |headers|
  {
    var last := |headers| - 1;
    var init := headers[..last];
    ZipLast(headers, values);
    if i < last {
      forall j | i < j < |init|
        ensures init[j] != init[i]
      {
        assert init[j] == headers[j] && init[i] == headers[i];
      }
      ZipAt(init, values, i);
      assert init[i] == headers[i] != headers[last];
    }
  }

  /** The last column is zipped after all the others. */
  lemma ZipLast(headers: seq<string>, values: seq<Option<string>>)
    requires headers != []
    ensures var last := |headers| - 1;
            Zip(headers, values) == Zip(headers[..last], values)[headers[last] := Cell(values, last)]
  {
  }

  /** The state of `parseXLSX` after some rows: the headers pushed so far and the records. */
  datatype Parse = Parse(headers: seq<string>, records: seq<Record>)

  /** The state after visiting the first `n` rows in order. */
  function ParseFirst(rows: seq<SheetRow>, n: nat): Parse
    requires n <= |rows|
  {
    if n == 0 then Parse([], [])
    else
      var p := ParseFirst(rows, n - 1);
      var row := rows[n - 1];
      if row.number == 1 then Parse(p.headers + HeaderNames(row.values), p.records)
      else Parse(p.headers, p.records + [Zip(p.headers, row.values)])
  }

  /** The records `parseXLSX` returns. */
  function SheetRecords(rows: seq<SheetRow>): seq<Record> {
    ParseFirst(rows, |rows|).records
  }

  /** The records of rows `1` to `n - 1`, each zipped against `headers`. */
  function DataRecords(headers: seq<string>, rows: seq<SheetRow>, n: nat): (r: seq<Record>)
    requires 1 <= n <= |rows|
    ensures |r| == n - 1
    ensures forall i :: 0 <= i < n - 1 ==> r[i] == Zip(headers, rows[i + 1].values)
  {
    if n == 1 then [] else DataRecords(headers, rows, n - 1) + [Zip(headers, rows[n - 1].values)]
  }

  /** Once row 1 came first and no other row is numbered 1, every later row adds one record. */
  lemma {:induction false} ParseAfterHeader(rows: seq<SheetRow>, n: nat)
    requires 1 <= n <= |rows| && rows[0].number == 1
    requires forall i :: 1 <= i < |rows| ==> rows[i].number != 1
    ensures ParseFirst(rows, n) == Parse(HeaderNames(rows[0].values), DataRecords(HeaderNames(rows[0].values), rows, n))
  {
    if n > 1 {
      ParseAfterHeader(rows, n - 1);
      assert rows[n - 1].number != 1;
    }
  }

  /**
   * With row 1 first and no other row numbered 1, there is one record per data row, in order,
   * each keyed by exactly the header names, holding that row's trimmed cell texts.
   */
  lemma SheetWithHeaderRow(rows: seq<SheetRow>)
    requires rows != [] && rows[0].number == 1
    requires forall i :: 1 <= i < |rows| ==> rows[i].number != 1
    ensures |SheetRecords(rows)| == |rows| - 1
    ensures forall i :: 0 <= i < |rows| - 1 ==>
              SheetRecords(rows)[i] == Zip(HeaderNames(rows[0].values), rows[i + 1].values)
    ensures forall i :: 0 <= i < |rows| - 1 ==>
              SheetRecords(rows)[i].Keys == set h | h in HeaderNames(rows[0].values)
  {
    ParseAfterHeader(rows, |rows|);
  }

  /** `values.forEach(h => headers.push(String(h).trim()))` on the header row. */
  method PushHeaders(headers: seq<string>, values: seq<Option<string>>) returns (out: seq<string>)
    ensures out == headers + HeaderNames(values)
  {
    out := headers;
    for i := 0 to |values|
      invariant out == headers + HeaderNames(values[..i])
    {
      assert values[..i + 1][..i] == values[..i];
      if values[i].Some? {
        out := out + [Trim(values[i].value)];
      }
    }
    assert values[..|values|] == values;
  }

  /** `headers.forEach((h, i) => obj[h] = …)` on a data row. */
  method ZipRow(headers: seq<string>, values: seq<Option<string>>) returns (obj: Record)
    ensures obj == Zip(headers, values)
  {
    obj := map[];
    for i := 0 to |headers|
      invariant obj == Zip(headers[..i], values)
    {
      assert headers[..i + 1][..i] == headers[..i];
      obj := obj[headers[i] := if i < |values| && values[i].Some? then Trim(values[i].value) else ""];
    }
    assert headers[..|headers|] == headers;
  }

  /**
   * `parseXLSX`'s `eachRow` callback: row 1 pushes its trimmed header cells, every other row
   * pushes the record zipped against the headers seen so far.
   */
  method ParseSheet(rows: seq<SheetRow>) returns (records: seq<Record>)
    ensures records == SheetRecords(rows)
  {
    var headers: seq<string> := [];
    records := [];
    for n := 0 to |rows|
      invariant ParseFirst(rows, n) == Parse(headers, records)
    {
      var row := rows[n];
      if row.number == 1 {
        headers := PushHeaders(headers, row.values);
      } else {
        var obj := ZipRow(headers, row.values);
        records := records + [obj];
      }
    }
  }
}
