/**
 * The batch committer shared by both import copies: rows are validated and applied in slices
 * of `BatchSize`, each slice inside one transaction that a store error rolls back, while a
 * summary counts imported and skipped rows and collects error entries.
 */
module BatchCommitter {
  import opened Wrappers
  import opened Text
  import opened SheetParser
  import opened SalesStore
  import opened Validator

  /** `batchSize`: rows per transaction. */
  const BatchSize: nat := 200

  /** The store statements that can throw. */
  datatype Op = Begin | Lookup | Upsert | Exists | Insert | Commit

  /**
   * Which statements throw, and with what message: `(k, op)` for the statement `op` run for the
   * 0-based row `k`, or for the batch starting at row `k` when `op` is `Begin` or `Commit`. A
   * statement that throws changes nothing.
   */
  type Faults = (nat, Op) -> Option<string>

  /** The copy of the pipeline: the command line resolves product names, HTTP keeps them. */
  datatype Copy = Script(products: map<string, int>) | Route

  /**
   * Everything one import run depends on besides the table: the rows, the copy's `validateRow`
   * applied to row `k` (`validate(k)`), and the statements that throw.
   */
  datatype Env = Env(rows: seq<Record>, validate: nat -> Validation, faults: Faults)

  /** An entry of `summary.errors`: a rejected row (1-based) or a rolled-back batch. */
  datatype ErrorEntry = LineError(line: nat, reason: string) | BatchError(batchStart: nat, reason: string)

  /** The `summary` object. */
  datatype Summary = Summary(imported: nat, skipped: nat, errors: seq<ErrorEntry>)

  /** The summary and the table between two rows. */
  datatype Progress = Progress(summary: Summary, table: Table)

  /** One or more rows applied, or a statement that threw (with the summary at that point). */
  datatype RowResult = Applied(progress: Progress) | Threw(summary: Summary, message: string)

  /** The end of a run: the summary, the table, and the message of a `beginTransaction` failure. */
  datatype Outcome = Outcome(summary: Summary, table: Table, aborted: Option<string>)

  /** The summary every run starts from. */
  const EmptySummary: Summary := Summary(0, 0, [])

  /**
   * `validateRow` of the given copy, as the batch loop calls it on row `k` of `rows`: the
   * command line looks the product up, and that lookup throws when `faults(k, Lookup)` says so.
   */
  function RowCheck(copy: Copy, rows: seq<Record>, parsers: Parsers, faults: Faults): nat -> Validation {
    (k: nat) =>
      if k >= |rows| then Invalid([])
      else match copy
        case Script(products) => ValidateScript(rows[k], parsers, products, faults(k, Lookup))
        case Route => ValidateRoute(rows[k], parsers)
  }

  /** The number of rows a summary accounts for. */
  function Counted(s: Summary): nat {
    s.imported + s.skipped
  }

  /** Whether no entry of `errors` is a batch failure. */
  predicate NoBatchErrors(errors: seq<ErrorEntry>) {
    forall i :: 0 <= i < |errors| ==> errors[i].LineError?
  }

  /**
   * The body of the inner loop for row `k`: a row that fails validation is skipped and logged
   * with its 1-based line; a row with `IdVenta` is upserted; a row without one is skipped when
   * its natural key exists and inserted otherwise.
   */
  function ApplyRow(env: Env, k: nat, v: Validation, p: Progress): (r: RowResult)
    ensures r.Applied? ==> Counted(r.progress.summary) == Counted(p.summary) + 1
    ensures r.Applied? ==> r.progress.summary.imported >= p.summary.imported
    ensures r.Threw? ==> r.summary == p.summary
    ensures v.Invalid? ==>
              r.Applied? && r.progress.table == p.table
              && r.progress.summary.skipped == p.summary.skipped + 1
              && r.progress.summary.errors == p.summary.errors + [LineError(k + 1, Join(v.errors, "; "))]
    ensures v.Valid? && r.Applied? ==> r.progress.summary.errors == p.summary.errors
    ensures v.Valid? && v.candidate.idVenta.Some? && r.Applied? ==>
              r.progress.table == p.table.Upsert(v.candidate.idVenta.value, v.candidate.sale)
              && r.progress.summary.imported == p.summary.imported + 1
    ensures v.Valid? && v.candidate.idVenta.None? && r.Applied? ==>
              var s := v.candidate.sale;
              if p.table.HasNaturalKey(s)
              then r.progress.table == p.table && r.progress.summary.skipped == p.summary.skipped + 1
              else r.progress.table == p.table.Insert(s) && r.progress.summary.imported == p.summary.imported + 1
  {
    var s := p.summary;
    if v.Invalid? then
      Applied(Progress(s.(skipped := s.skipped + 1,
                          errors := s.errors + [LineError(k + 1, Join(v.errors, "; "))]), p.table))
    else if v.candidate.idVenta.Some? then
      if env.faults(k, Upsert).Some? then Threw(s, env.faults(k, Upsert).value)
      else Applied(Progress(s.(imported := s.imported + 1), p.table.Upsert(v.candidate.idVenta.value, v.candidate.sale)))
    else if env.faults(k, Exists).Some? then Threw(s, env.faults(k, Exists).value)
    else if p.table.HasNaturalKey(v.candidate.sale) then Applied(Progress(s.(skipped := s.skipped + 1), p.table))
    else if env.faults(k, Insert).Some? then Threw(s, env.faults(k, Insert).value)
    else Applied(Progress(s.(imported := s.imported + 1), p.table.Insert(v.candidate.sale)))
  }

  /**
   * When a row step throws: never for an invalid row; for a row with `IdVenta`, exactly when its
   * upsert throws; for a keyless row, exactly when its existence query throws or, its key being
   * new, its insert throws. The step reports the message of the statement that threw.
   */
  lemma ApplyRowThrows(env: Env, k: nat, v: Validation, p: Progress)
    ensures var r := ApplyRow(env, k, v, p);
            && (v.Invalid? ==> r.Applied?)
            && (v.Valid? && v.candidate.idVenta.Some? ==>
                  && (r.Threw? <==> env.faults(k, Upsert).Some?)
                  && (r.Threw? ==> r.message == env.faults(k, Upsert).value))
            && (v.Valid? && v.candidate.idVenta.None? ==>
                  var s := v.candidate.sale;
                  && (r.Threw? <==> env.faults(k, Exists).Some? || (!p.table.HasNaturalKey(s) && env.faults(k, Insert).Some?))
                  && (r.Threw? && env.faults(k, Exists).Some? ==> r.message == env.faults(k, Exists).value)
                  && (r.Threw? && env.faults(k, Exists).None? ==> r.message == env.faults(k, Insert).value))
  {
  }

  /** Rows `k` to `end - 1` of a batch, in order, up to the first statement that throws. */
  function BatchFrom(env: Env, k: nat, end: nat, p: Progress): RowResult
    requires k <= end <= |env.rows|
    decreases |env.rows| - k
  {
    if k == end then Applied(p)
    else match ApplyRow(env, k, env.validate(k), p)
      case Threw(s, m) => Threw(s, m)
      case Applied(q) => BatchFrom(env, k + 1, end, q)
  }

  /** The end of the batch starting at `start`: `rows.slice(start, start + batchSize)`. */
  function BatchEnd(env: Env, start: nat): nat {
    if start + BatchSize < |env.rows| then start + BatchSize else |env.rows|
  }

  /**
   * One batch in its transaction: commit when every row went through, otherwise roll the
   * table back to its state before the batch and log `batchStart = start + 1`. The summary's
   * counters keep what the batch's rows added before the failure.
   */
  function RunBatch(env: Env, start: nat, p: Progress): Outcome
    requires start < |env.rows|
  {
    if env.faults(start, Begin).Some? then Outcome(p.summary, p.table, env.faults(start, Begin))
    else match BatchFrom(env, start, BatchEnd(env, start), p)
      case Threw(s, m) => Outcome(s.(errors := s.errors + [BatchError(start + 1, m)]), p.table, None)
      case Applied(q) =>
        if env.faults(start, Commit).Some? then
          Outcome(q.summary.(errors := q.summary.errors + [BatchError(start + 1, env.faults(start, Commit).value)]),
                  p.table, None)
        else Outcome(q.summary, q.table, None)
  }

  /** The batches starting at `i`, `i + BatchSize`, … until the rows run out or a begin fails. */
  function ImportFrom(env: Env, i: nat, p: Progress): Outcome
    decreases |env.rows| - i
  {
    if i >= |env.rows| then Outcome(p.summary, p.table, None)
    else
      var o := RunBatch(env, i, p);
      if o.aborted.Some? then o
      else ImportFrom(env, i + BatchSize, Progress(o.summary, o.table))
  }

  /** A whole run over `env.rows` on a table that starts as `t0`. */
  function Import(env: Env, t0: Table): Outcome {
    ImportFrom(env, 0, Progress(EmptySummary, t0))
  }

  /** What a row step that ended with `summary` and `thrown` on `table` amounts to. */
  function StepResult(summary: Summary, table: Table, thrown: Option<string>): RowResult {
    if thrown.None? then Applied(Progress(summary, table)) else Threw(summary, thrown.value)
  }

  /**
   * One iteration of the inner loop, on the connection, given row `k`'s validation `v`: skip
   * the row, upsert it, or check its natural key and insert it. `thrown` is the message of the statement that
   * threw, if one did.
   */
  method ApplyRowOn(conn: Connection, env: Env, k: nat, v: Validation, summary: Summary)
      returns (next: Summary, thrown: Option<string>)
    modifies conn`table
    ensures StepResult(next, conn.table, thrown) == ApplyRow(env, k, v, Progress(summary, old(conn.table)))
  {
    next, thrown := summary, None;
    if v.Invalid? {
      next := next.(skipped := next.skipped + 1,
                    errors := next.errors + [LineError(k + 1, Join(v.errors, "; "))]);
      return;
    }
    if v.candidate.idVenta.Some? {
      thrown := env.faults(k, Upsert);
      if thrown.None? {
        conn.UpsertById(v.candidate.idVenta.value, v.candidate.sale);
        next := next.(imported := next.imported + 1);
      }
    } else {
      thrown := env.faults(k, Exists);
      if thrown.Some? {
        return;
      }
      var found := conn.ExistsByNaturalKey(v.candidate.sale);
      if found {
        next := next.(skipped := next.skipped + 1);
        return;
      }
      thrown := env.faults(k, Insert);
      if thrown.None? {
        conn.InsertKeyless(v.candidate.sale);
        next := next.(imported := next.imported + 1);
      }
    }
  }

  /**
   * The inner loop over rows `start` to `end - 1`: each row is validated and applied in turn,
   * and the loop stops at the first statement that throws, whose message is `thrown`.
   */
  method RunRowsOn(conn: Connection, env: Env, start: nat, end: nat, summary: Summary)
      returns (next: Summary, thrown: Option<string>)
    requires start <= end <= |env.rows|
    modifies conn`table
    ensures StepResult(next, conn.table, thrown) == BatchFrom(env, start, end, Progress(summary, old(conn.table)))
  {
    next, thrown := summary, None;
    ghost var p0 := Progress(summary, conn.table);
    var k := start;
    while k < end && thrown.None?
      invariant start <= k <= end
      invariant BatchFrom(env, start, end, p0)
                == if thrown.None? then BatchFrom(env, k, end, Progress(next, conn.table))
                   else Threw(next, thrown.value)
      decreases end - k
    {
      var v := env.validate(k);
      next, thrown := ApplyRowOn(conn, env, k, v, next);
      k := k + 1;
    }
  }

  /**
   * One batch on the connection: begin, run the rows until one throws, then commit or roll
   * back and log the batch. `aborted` is the message of a `beginTransaction` failure.
   */
  method RunBatchOn(conn: Connection, env: Env, start: nat, summary: Summary)
      returns (next: Summary, aborted: Option<string>)
    requires start < |env.rows| && !conn.inTransaction
    modifies conn
    ensures Outcome(next, conn.table, aborted) == RunBatch(env, start, Progress(summary, old(conn.table)))
    ensures !conn.inTransaction
  {
    next := summary;
    aborted := env.faults(start, Begin);
    if aborted.Some? {
      return;
    }
    var end := if start + BatchSize < |env.rows| then start + BatchSize else |env.rows|;
    conn.BeginTransaction();
    var thrown;
    next, thrown := RunRowsOn(conn, env, start, end, summary);
    if thrown.None? {
      thrown := env.faults(start, Commit);
    }
    if thrown.Some? {
      conn.Rollback();
      next := next.(errors := next.errors + [BatchError(start + 1, thrown.value)]);
    } else {
      conn.Commit();
    }
  }

  /**
   * The batch loop of both copies, on the connection `conn`: it leaves the table and returns
   * the summary that `Import` describes, and no transaction open.
   */
  method RunImport(conn: Connection, env: Env) returns (summary: Summary, aborted: Option<string>)
    requires !conn.inTransaction
    modifies conn
    ensures Outcome(summary, conn.table, aborted) == Import(env, old(conn.table))
    ensures !conn.inTransaction
  {
    summary := EmptySummary;
    aborted := None;
    var i := 0;
    while i < |env.rows|
      invariant !conn.inTransaction && aborted.None?
      invariant ImportFrom(env, i, Progress(summary, conn.table)) == Import(env, old(conn.table))
      decreases |env.rows| - i
    {
      summary, aborted := RunBatchOn(conn, env, i, summary);
      if aborted.Some? {
        return;
      }
      i := i + BatchSize;
    }
  }

  /** The summary a row step or a batch prefix reached. */
  function SummaryOf(r: RowResult): Summary {
    if r.Applied? then r.progress.summary else r.summary
  }

  /** The rows from `i` on, or none when `i` is past the end. */
  function Remaining(env: Env, i: nat): nat {
    if i < |env.rows| then |env.rows| - i else 0
  }

  /**
   * A well-formed error entry: a line error names a 1-based line whose row failed validation,
   * with that row's messages joined by `; `; a batch error names the 1-based first row of a batch.
   */
  predicate EntryOk(env: Env, e: ErrorEntry) {
    match e
    case LineError(line, reason) =>
      1 <= line <= |env.rows| && env.validate(line - 1).Invalid?
      && reason == Join(env.validate(line - 1).errors, "; ")
    case BatchError(b, _) => 1 <= b <= |env.rows| && (b - 1) % BatchSize == 0
  }

  predicate EntriesOk(env: Env, errors: seq<ErrorEntry>) {
    forall i :: 0 <= i < |errors| ==> EntryOk(env, errors[i])
  }

  /**
   * Rows `k` to `end - 1` of a batch: each row that went through adds one to `imported` or to
   * `skipped`, so a batch that ran to its end accounts for every row and one cut short accounts
   * for at most its rows; `imported` never drops; error entries are only appended, all of them
   * well-formed line errors.
   */
  lemma {:induction false} BatchFromFacts(env: Env, k: nat, end: nat, p: Progress)
    requires k <= end <= |env.rows|
    ensures var r := BatchFrom(env, k, end, p);
            && (r.Applied? ==> Counted(r.progress.summary) == Counted(p.summary) + (end - k))
            && Counted(p.summary) <= Counted(SummaryOf(r)) <= Counted(p.summary) + (end - k)
            && SummaryOf(r).imported >= p.summary.imported
            && SummaryOf(r).skipped >= p.summary.skipped
            && p.summary.errors <= SummaryOf(r).errors
            && (EntriesOk(env, p.summary.errors) ==> EntriesOk(env, SummaryOf(r).errors))
            && (NoBatchErrors(p.summary.errors) ==> NoBatchErrors(SummaryOf(r).errors))
    decreases end - k
  {
    if k < end {
      var a := ApplyRow(env, k, env.validate(k), p);
      if a.Applied? {
        BatchFromFacts(env, k + 1, end, a.progress);
        var es := a.progress.summary.errors;
        assert p.summary.errors <= es;
        assert EntriesOk(env, p.summary.errors) ==> EntriesOk(env, es) by {
          if EntriesOk(env, p.summary.errors) && |es| > |p.summary.errors| {
            assert es == p.summary.errors + [es[|es| - 1]];
            assert EntryOk(env, es[|es| - 1]);
          }
        }
        assert NoBatchErrors(p.summary.errors) ==> NoBatchErrors(es) by {
          if NoBatchErrors(p.summary.errors) && |es| > |p.summary.errors| {
            assert es == p.summary.errors + [es[|es| - 1]];
          }
        }
      }
    }
  }

  /**
   * One batch: a failed `beginTransaction` changes nothing and is reported as the run's abort;
   * otherwise the batch accounts for at most its rows, for all of them when it logged no batch
   * error, and keeps its error entries well-formed.
   */
  lemma RunBatchFacts(env: Env, start: nat, p: Progress)
    requires start < |env.rows| && start % BatchSize == 0
    ensures var o := RunBatch(env, start, p);
            && (o.aborted.Some? <==> env.faults(start, Begin).Some?)
            && (o.aborted.Some? ==> o.aborted == env.faults(start, Begin) && o.summary == p.summary && o.table == p.table)
            && Counted(p.summary) <= Counted(o.summary) <= Counted(p.summary) + (BatchEnd(env, start) - start)
            && o.summary.imported >= p.summary.imported
            && o.summary.skipped >= p.summary.skipped
            && p.summary.errors <= o.summary.errors
            && (EntriesOk(env, p.summary.errors) ==> EntriesOk(env, o.summary.errors))
            && (o.aborted.None? && NoBatchErrors(o.summary.errors) ==>
                  Counted(o.summary) == Counted(p.summary) + (BatchEnd(env, start) - start))
  {
    var end := BatchEnd(env, start);
    BatchFromFacts(env, start, end, p);
    var r := BatchFrom(env, start, end, p);
    var o := RunBatch(env, start, p);
    if env.faults(start, Begin).None? && o.summary.errors != SummaryOf(r).errors {
      var es := o.summary.errors;
      assert es == SummaryOf(r).errors + [BatchError(start + 1, es[|es| - 1].reason)];
      assert EntryOk(env, es[|es| - 1]);
      assert !NoBatchErrors(es) by { assert !es[|es| - 1].LineError?; }
    }
  }

  /** A batch's rows only append line errors to the log: batch errors come from `RunBatch`. */
  lemma {:induction false} BatchAppendsLineErrors(env: Env, k: nat, end: nat, p: Progress)
    requires k <= end <= |env.rows|
    ensures var es := SummaryOf(BatchFrom(env, k, end, p)).errors;
            && p.summary.errors <= es
            && forall n :: |p.summary.errors| <= n < |es| ==> es[n].LineError?
    decreases end - k
  {
    if k < end {
      var a := ApplyRow(env, k, env.validate(k), p);
      if a.Applied? {
        BatchAppendsLineErrors(env, k + 1, end, a.progress);
      }
    }
  }

  /**
   * The row errors of one batch are logged in row order: each names a row of the batch, 1-based,
   * and their lines strictly increase.
   */
  lemma {:induction false} BatchLineErrorsInOrder(env: Env, k: nat, end: nat, p: Progress)
    requires k <= end <= |env.rows|
    ensures var es := SummaryOf(BatchFrom(env, k, end, p)).errors;
            && p.summary.errors <= es
            && (forall n :: |p.summary.errors| <= n < |es| ==> es[n].LineError? && k + 1 <= es[n].line <= end)
            && (forall n, m :: |p.summary.errors| <= n < m < |es| ==>
                  es[n].LineError? && es[m].LineError? && es[n].line < es[m].line)
    decreases end - k
  {
    if k < end {
      var v := env.validate(k);
      var a := ApplyRow(env, k, v, p);
      if a.Applied? {
        var q := a.progress;
        BatchLineErrorsInOrder(env, k + 1, end, q);
        assert BatchFrom(env, k, end, p) == BatchFrom(env, k + 1, end, q);
        var es := SummaryOf(BatchFrom(env, k + 1, end, q)).errors;
        if v.Invalid? {
          var base := |p.summary.errors|;
          assert q.summary.errors == p.summary.errors + [LineError(k + 1, Join(v.errors, "; "))];
          assert es[base] == LineError(k + 1, Join(v.errors, "; "));
        }
      }
    }
  }

  /**
   * A batch whose run ends the log with a new batch error was rolled back, whatever earlier
   * batches logged: the table is the one before the batch, and the entry names the batch's
   * first row, 1-based.
   */
  lemma RolledBackBatchRestoresTable(env: Env, start: nat, p: Progress)
    requires start < |env.rows|
    ensures var o := RunBatch(env, start, p);
            var es := o.summary.errors;
            |es| > |p.summary.errors| && es[|es| - 1].BatchError? ==>
              && o.table == p.table
              && es[|es| - 1].batchStart == start + 1
  {
    BatchAppendsLineErrors(env, start, BatchEnd(env, start), p);
  }

  /**
   * The batches from `i` on: they account for at most the remaining rows, and for all of them
   * when the run neither aborted nor logged a batch error; a run aborts only with the message of
   * a `beginTransaction` that failed at the start of one of its batches.
   */
  lemma {:induction false} ImportFromFacts(env: Env, i: nat, p: Progress)
    requires i % BatchSize == 0
    ensures var o := ImportFrom(env, i, p);
            && Counted(p.summary) <= Counted(o.summary) <= Counted(p.summary) + Remaining(env, i)
            && o.summary.imported >= p.summary.imported
            && o.summary.skipped >= p.summary.skipped
            && p.summary.errors <= o.summary.errors
            && (EntriesOk(env, p.summary.errors) ==> EntriesOk(env, o.summary.errors))
            && (o.aborted.None? && NoBatchErrors(o.summary.errors) ==>
                  Counted(o.summary) == Counted(p.summary) + Remaining(env, i))
            && (o.aborted.Some? ==>
                  exists j :: i <= j < |env.rows| && j % BatchSize == 0 && env.faults(j, Begin) == o.aborted)
    decreases |env.rows| - i
  {
    if i < |env.rows| {
      var b := RunBatch(env, i, p);
      RunBatchFacts(env, i, p);
      if b.aborted.None? {
        var q := Progress(b.summary, b.table);
        ImportFromFacts(env, i + BatchSize, q);
        var o := ImportFrom(env, i + BatchSize, q);
        assert Remaining(env, i) == (BatchEnd(env, i) - i) + Remaining(env, i + BatchSize);
        if o.aborted.None? && NoBatchErrors(o.summary.errors) {
          assert NoBatchErrors(b.summary.errors) by {
            forall n | 0 <= n < |b.summary.errors| ensures b.summary.errors[n].LineError? {
              assert b.summary.errors[n] == o.summary.errors[n];
            }
          }
        }
      }
    }
  }

  /** `ImportFromFacts` from the first row and a summary that counts nothing yet. */
  lemma ImportFromStart(env: Env, p: Progress)
    requires p.summary.imported == 0 && p.summary.skipped == 0 && p.summary.errors == []
    ensures var o := ImportFrom(env, 0, p);
            && o.summary.imported + o.summary.skipped <= |env.rows|
            && (o.aborted.None? && NoBatchErrors(o.summary.errors) ==>
                  o.summary.imported + o.summary.skipped == |env.rows|)
            && EntriesOk(env, o.summary.errors)
            && (o.aborted.Some? ==>
                  exists j :: 0 <= j < |env.rows| && j % BatchSize == 0 && env.faults(j, Begin) == o.aborted)
  {
    ImportFromFacts(env, 0, p);
  }

  /**
   * A whole run: `imported + skipped` never exceeds the number of rows, and equals it when no
   * batch failed and the run did not abort; every error entry is well-formed.
   */
  lemma ImportCounts(env: Env, t0: Table)
    ensures var o := Import(env, t0);
            && o.summary.imported + o.summary.skipped <= |env.rows|
            && (o.aborted.None? && NoBatchErrors(o.summary.errors) ==>
                  o.summary.imported + o.summary.skipped == |env.rows|)
            && EntriesOk(env, o.summary.errors)
            && (o.aborted.Some? ==>
                  exists j :: 0 <= j < |env.rows| && j % BatchSize == 0 && env.faults(j, Begin) == o.aborted)
  {
    ImportFromStart(env, Progress(EmptySummary, t0));
  }

  /** No store statement throws. */
  ghost predicate NoFaults(env: Env) {
    forall k: nat, op: Op :: env.faults(k, op).None?
  }

  /**
   * Without store failures nothing is rolled back: a run does not abort, logs no batch error,
   * and so accounts for every row.
   */
  lemma {:induction false} NoFaultsNoBatchErrors(env: Env, i: nat, p: Progress)
    requires NoFaults(env) && NoBatchErrors(p.summary.errors)
    ensures var o := ImportFrom(env, i, p);
            o.aborted.None? && NoBatchErrors(o.summary.errors)
    decreases |env.rows| - i
  {
    if i < |env.rows| {
      var end := BatchEnd(env, i);
      NoFaultsBatchApplies(env, i, end, p);
      BatchFromFacts(env, i, end, p);
      assert env.faults(i, Begin).None? && env.faults(i, Commit).None?;
      var b := RunBatch(env, i, p);
      NoFaultsNoBatchErrors(env, i + BatchSize, Progress(b.summary, b.table));
    }
  }

  /** Without store failures every row of a batch goes through. */
  lemma {:induction false} NoFaultsBatchApplies(env: Env, k: nat, end: nat, p: Progress)
    requires k <= end <= |env.rows| && NoFaults(env)
    ensures BatchFrom(env, k, end, p).Applied?
    decreases end - k
  {
    if k < end {
      assert env.faults(k, Upsert).None? && env.faults(k, Exists).None? && env.faults(k, Insert).None?;
      var a := ApplyRow(env, k, env.validate(k), p);
      NoFaultsBatchApplies(env, k + 1, end, a.progress);
    }
  }

  /** A run without store failures accounts for every row: `imported + skipped` is the row count. */
  lemma NoFaultsCountsEveryRow(env: Env, t0: Table)
    requires NoFaults(env)
    ensures var o := Import(env, t0);
            o.aborted.None? && o.summary.imported + o.summary.skipped == |env.rows|
  {
    var p := Progress(EmptySummary, t0);
    NoFaultsNoBatchErrors(env, 0, p);
    ImportCounts(env, t0);
  }

  /** Every row that passes validation has no `IdVenta`, so each is checked by its natural key. */
  predicate Keyless(env: Env) {
    forall k :: 0 <= k < |env.rows| && env.validate(k).Valid? ==> env.validate(k).candidate.idVenta.None?
  }

  /** Every valid row among rows `from` to `to - 1` has its natural key in `t`. */
  predicate AllStored(env: Env, from: nat, to: nat, t: Table) {
    forall k :: from <= k < to && k < |env.rows| && env.validate(k).Valid? ==>
      t.HasNaturalKey(env.validate(k).candidate.sale)
  }

  /**
   * A batch of keyless rows without store failures leaves the natural key of each of its valid
   * rows in the table, and removes none that was there.
   */
  lemma {:induction false} BatchStoresEverySale(env: Env, k: nat, end: nat, p: Progress)
    requires k <= end <= |env.rows| && NoFaults(env) && Keyless(env)
    ensures var r := BatchFrom(env, k, end, p);
            && r.Applied? && AllStored(env, k, end, r.progress.table)
            && forall x :: p.table.HasNaturalKey(x) ==> r.progress.table.HasNaturalKey(x)
    decreases end - k
  {
    if k < end {
      assert env.faults(k, Upsert).None? && env.faults(k, Exists).None? && env.faults(k, Insert).None?;
      var v := env.validate(k);
      var a := ApplyRow(env, k, v, p);
      if v.Valid? && !p.table.HasNaturalKey(v.candidate.sale) {
        InsertEffect(p.table, v.candidate.sale);
      }
      assert forall x :: p.table.HasNaturalKey(x) ==> a.progress.table.HasNaturalKey(x);
      assert v.Valid? ==> a.progress.table.HasNaturalKey(v.candidate.sale);
      BatchStoresEverySale(env, k + 1, end, a.progress);
    }
  }

  /** The batches from `i` on store the natural key of every valid row from `i` on. */
  lemma {:induction false} ImportStoresFrom(env: Env, i: nat, p: Progress)
    requires NoFaults(env) && Keyless(env)
    ensures var o := ImportFrom(env, i, p);
            && AllStored(env, i, |env.rows|, o.table)
            && forall x :: p.table.HasNaturalKey(x) ==> o.table.HasNaturalKey(x)
    decreases |env.rows| - i
  {
    if i < |env.rows| {
      var end := BatchEnd(env, i);
      BatchStoresEverySale(env, i, end, p);
      assert env.faults(i, Begin).None? && env.faults(i, Commit).None?;
      var b := RunBatch(env, i, p);
      ImportStoresFrom(env, i + BatchSize, Progress(b.summary, b.table));
    }
  }

  /**
   * A batch of keyless rows whose natural keys are all stored already imports nothing and
   * leaves the table as it was: every valid row is skipped as a duplicate, and only an
   * existence query can throw, before anything was written.
   */
  lemma {:induction false} BatchOfStoredAddsNothing(env: Env, k: nat, end: nat, p: Progress)
    requires k <= end <= |env.rows| && Keyless(env)
    requires AllStored(env, k, end, p.table)
    ensures var r := BatchFrom(env, k, end, p);
            && (r.Applied? ==> r.progress.table == p.table)
            && SummaryOf(r).imported == p.summary.imported
    decreases end - k
  {
    if k < end {
      var a := ApplyRow(env, k, env.validate(k), p);
      if a.Applied? {
        BatchOfStoredAddsNothing(env, k + 1, end, a.progress);
      }
    }
  }

  /**
   * The batches from `i` on, over keyless rows whose natural keys are all stored, change
   * nothing, whichever statements throw: a batch that throws is rolled back to the same table.
   */
  lemma {:induction false} ImportOfStoredAddsNothing(env: Env, i: nat, p: Progress)
    requires Keyless(env)
    requires AllStored(env, i, |env.rows|, p.table)
    ensures var o := ImportFrom(env, i, p);
            o.table == p.table && o.summary.imported == p.summary.imported
    decreases |env.rows| - i
  {
    if i < |env.rows| {
      var end := BatchEnd(env, i);
      BatchOfStoredAddsNothing(env, i, end, p);
      var b := RunBatch(env, i, p);
      if b.aborted.None? {
        ImportOfStoredAddsNothing(env, i + BatchSize, Progress(b.summary, b.table));
      }
    }
  }

  /**
   * Re-importing the same keyless file adds nothing: the second run finds every valid row's
   * natural key, imports no row and leaves the table the first run produced.
   */
  lemma ReImportAddsNothing(env: Env, t0: Table)
    requires NoFaults(env) && Keyless(env)
    ensures var t1 := Import(env, t0).table;
            Import(env, t1).table == t1 && Import(env, t1).summary.imported == 0
  {
    var t1 := Import(env, t0).table;
    ImportStoresFrom(env, 0, Progress(EmptySummary, t0));
    ImportOfStoredAddsNothing(env, 0, Progress(EmptySummary, t1));
  }

  /**
   * Two valid rows without `IdVenta`, new to `t0` and to each other, make up the whole run;
   * the first one's statements succeed and the insert of the second throws `m`.
   */
  ghost predicate SecondOfTwoInsertsThrows(env: Env, t0: Table, a: Sale, b: Sale, m: string) {
    && |env.rows| == 2
    && env.validate(0) == Valid(Candidate(None, a)) && env.validate(1) == Valid(Candidate(None, b))
    && env.faults(0, Begin).None? && env.faults(0, Exists).None? && env.faults(0, Insert).None?
    && env.faults(1, Exists).None? && env.faults(1, Insert) == Some(m)
    && a != b && !t0.HasNaturalKey(a) && !t0.HasNaturalKey(b)
  }

  /**
   * The counters are not rolled back with the table: two new keyless rows in one batch, the
   * second of whose insert throws, leave the table as it was yet report one row imported.
   */
  lemma RollbackKeepsCounters(env: Env, t0: Table, a: Sale, b: Sale, m: string)
    requires SecondOfTwoInsertsThrows(env, t0, a, b, m)
    ensures Import(env, t0) == Outcome(Summary(1, 0, [BatchError(1, m)]), t0, None)
  {
    FirstBatchOfTwoRolledBack(env, t0, a, b, m);
    LastBatch(env, 0, Progress(EmptySummary, t0));
  }

  /** The batch of those two rows restores `t0` and logs a batch error, with one row counted. */
  lemma FirstBatchOfTwoRolledBack(env: Env, t0: Table, a: Sale, b: Sale, m: string)
    requires SecondOfTwoInsertsThrows(env, t0, a, b, m)
    ensures RunBatch(env, 0, Progress(EmptySummary, t0)) == Outcome(Summary(1, 0, [BatchError(1, m)]), t0, None)
  {
    SecondInsertThrows(env, t0, a, b, m);
    FirstBatchRolledBack(env, Progress(EmptySummary, t0), 1, m);
  }

  /** `RolledBack` for a first batch that threw before logging anything. */
  lemma FirstBatchRolledBack(env: Env, p: Progress, n: nat, m: string)
    requires 0 < |env.rows| && env.faults(0, Begin).None?
    requires BatchFrom(env, 0, BatchEnd(env, 0), p) == Threw(Summary(n, 0, []), m)
    ensures RunBatch(env, 0, p) == Outcome(Summary(n, 0, [BatchError(1, m)]), p.table, None)
  {
    assert [] + [BatchError(0 + 1, m)] == [BatchError(1, m)];
    RolledBack(env, 0, p, Summary(n, 0, []), m);
  }

  /** The batch of the two rows throws at the second insert, after counting the first. */
  lemma SecondInsertThrows(env: Env, t0: Table, a: Sale, b: Sale, m: string)
    requires SecondOfTwoInsertsThrows(env, t0, a, b, m)
    ensures BatchEnd(env, 0) == 2
    ensures BatchFrom(env, 0, 2, Progress(EmptySummary, t0)) == Threw(Summary(1, 0, []), m)
  {
    var p0 := Progress(EmptySummary, t0);
    var t1 := t0.Insert(a);
    assert !t1.HasNaturalKey(b);
    var p1 := Progress(Summary(1, 0, []), t1);
    InsertThrows(env, 1, b, p1, m);
    InsertApplies(env, 0, a, p0, p1);
    BatchStopsAt(env, 1, 2, env.validate(1), p1, Summary(1, 0, []), m);
    BatchContinues(env, 0, 2, env.validate(0), p0, p1);
  }

  /** A keyless valid row whose natural key is new is inserted and counted. */
  lemma InsertApplies(env: Env, k: nat, s: Sale, p: Progress, q: Progress)
    requires env.faults(k, Exists).None? && !p.table.HasNaturalKey(s) && env.faults(k, Insert).None?
    requires q == Progress(p.summary.(imported := p.summary.imported + 1), p.table.Insert(s))
    ensures ApplyRow(env, k, Valid(Candidate(None, s)), p) == Applied(q)
  {
  }

  /** A keyless valid row whose insert throws stops the batch with the counters as they were. */
  lemma InsertThrows(env: Env, k: nat, s: Sale, p: Progress, m: string)
    requires env.faults(k, Exists).None? && !p.table.HasNaturalKey(s) && env.faults(k, Insert) == Some(m)
    ensures ApplyRow(env, k, Valid(Candidate(None, s)), p) == Threw(p.summary, m)
  {
  }

  /** A row that throws ends its batch with that exception. */
  lemma BatchStopsAt(env: Env, k: nat, end: nat, v: Validation, p: Progress, s: Summary, m: string)
    requires k < end <= |env.rows| && env.validate(k) == v
    requires ApplyRow(env, k, v, p) == Threw(s, m)
    ensures BatchFrom(env, k, end, p) == Threw(s, m)
  {
  }

  /** A row that completes hands its progress to the next row of the batch. */
  lemma BatchContinues(env: Env, k: nat, end: nat, v: Validation, p: Progress, q: Progress)
    requires k < end <= |env.rows| && env.validate(k) == v
    requires ApplyRow(env, k, v, p) == Applied(q)
    ensures BatchFrom(env, k, end, p) == BatchFrom(env, k + 1, end, q)
  {
  }

  /** A batch that throws restores the table it began with and logs its first row. */
  lemma RolledBack(env: Env, start: nat, p: Progress, s: Summary, m: string)
    requires start < |env.rows| && env.faults(start, Begin).None?
    requires BatchFrom(env, start, BatchEnd(env, start), p) == Threw(s, m)
    ensures RunBatch(env, start, p) == Outcome(s.(errors := s.errors + [BatchError(start + 1, m)]), p.table, None)
  {
  }

  /**
   * A batch whose rows all went through but whose commit throws is rolled back too: the table is
   * the one before the batch, the counters keep what its rows added, and the commit's message is
   * logged against the batch's first row.
   */
  lemma CommitFailsRolledBack(env: Env, start: nat, p: Progress, q: Progress)
    requires start < |env.rows| && env.faults(start, Begin).None?
    requires BatchFrom(env, start, BatchEnd(env, start), p) == Applied(q)
    requires env.faults(start, Commit).Some?
    ensures RunBatch(env, start, p) ==
              Outcome(q.summary.(errors := q.summary.errors + [BatchError(start + 1, env.faults(start, Commit).value)]),
                      p.table, None)
  {
  }

  /** A run whose last batch starts at `i` ends with that batch. */
  lemma LastBatch(env: Env, i: nat, p: Progress)
    requires i < |env.rows| <= i + BatchSize && RunBatch(env, i, p).aborted.None?
    ensures ImportFrom(env, i, p) == RunBatch(env, i, p)
  {
  }

  /** None of the statements run for row `j` of a batch throws. */
  predicate RowSucceeds(env: Env, j: nat) {
    env.faults(j, Upsert).None? && env.faults(j, Exists).None? && env.faults(j, Insert).None?
  }

  /**
   * The loop reaches row `k` from the batch starting at `i`: every batch from `i` up to the one
   * holding `k` begins, and no row of `k`'s own batch before `k` has a failing upsert, existence
   * query or insert. This is sufficient rather than exact: it also excludes a failure of a
   * statement that row never runs. Batches before `k`'s may fail in any other way and be
   * rolled back.
   */
  ghost predicate ReachesRow(env: Env, i: nat, k: nat) {
    && (forall j: nat :: i <= j <= k && j % BatchSize == 0 ==> env.faults(j, Begin).None?)
    && (forall j: nat :: k - k % BatchSize <= j < k ==> RowSucceeds(env, j))
  }

  /** The entry logged for a row that failed validation. */
  function LineEntry(env: Env, k: nat): ErrorEntry
    requires env.validate(k).Invalid?
  {
    LineError(k + 1, Join(env.validate(k).errors, "; "))
  }

  /** A batch reaching an invalid row `k` logs it, and later rows never remove the entry. */
  lemma {:induction false} BatchReportsInvalidRow(env: Env, j: nat, end: nat, p: Progress, k: nat)
    requires j <= k < end <= |env.rows| && env.validate(k).Invalid?
    requires forall n: nat :: j <= n < k ==> RowSucceeds(env, n)
    ensures LineEntry(env, k) in SummaryOf(BatchFrom(env, j, end, p)).errors
    decreases end - j
  {
    var a := ApplyRow(env, j, env.validate(j), p);
    if j == k {
      BatchFromFacts(env, k + 1, end, a.progress);
      var es := a.progress.summary.errors;
      assert es[|es| - 1] == LineEntry(env, k);
    } else {
      assert RowSucceeds(env, j);
      BatchReportsInvalidRow(env, j + 1, end, a.progress, k);
    }
  }

  /**
   * A row that fails validation is logged with its 1-based line and its messages joined by
   * `; ` whenever the loop reaches it, whatever earlier batches logged or rolled back.
   */
  lemma {:induction false} InvalidRowReportedFrom(env: Env, i: nat, p: Progress, k: nat)
    requires i % BatchSize == 0 && i <= k < |env.rows|
    requires env.validate(k).Invalid? && ReachesRow(env, i, k)
    ensures LineEntry(env, k) in ImportFrom(env, i, p).summary.errors
    decreases |env.rows| - i
  {
    assert env.faults(i, Begin).None?;
    if k < BatchEnd(env, i) {
      InvalidRowInFirstBatch(env, i, p, k);
    } else {
      var b := RunBatch(env, i, p);
      NextBatch(env, i, p);
      InvalidRowReportedFrom(env, i + BatchSize, Progress(b.summary, b.table), k);
    }
  }

  /** `InvalidRowReportedFrom` when the row lies in the batch starting at `i`. */
  lemma InvalidRowInFirstBatch(env: Env, i: nat, p: Progress, k: nat)
    requires i % BatchSize == 0 && i <= k < BatchEnd(env, i)
    requires env.validate(k).Invalid? && ReachesRow(env, i, k)
    ensures LineEntry(env, k) in ImportFrom(env, i, p).summary.errors
  {
    assert env.faults(i, Begin).None?;
    assert k - k % BatchSize == i by { BatchStartOf(i, k); }
    var b := RunBatch(env, i, p);
    var q := Progress(b.summary, b.table);
    NextBatch(env, i, p);
    BatchReportsInvalidRow(env, i, BatchEnd(env, i), p, k);
    BatchKeepsRowErrors(env, i, p);
    LogGrows(env, i + BatchSize, q);
    StaysInLog(LineEntry(env, k), b.summary.errors, ImportFrom(env, i, p).summary.errors);
  }

  /** A row of the batch starting at `i` belongs to that batch. */
  lemma BatchStartOf(i: nat, k: nat)
    requires i % BatchSize == 0 && i <= k < i + BatchSize
    ensures k - k % BatchSize == i
  {
    var q := i / BatchSize;
    assert k == q * BatchSize + (k - i);
  }

  /** A batch that began hands its summary and table on to the batch after it. */
  lemma NextBatch(env: Env, i: nat, p: Progress)
    requires i < |env.rows| && env.faults(i, Begin).None?
    ensures var b := RunBatch(env, i, p);
            ImportFrom(env, i, p) == ImportFrom(env, i + BatchSize, Progress(b.summary, b.table))
  {
  }

  /** Later batches only append to the log. */
  lemma LogGrows(env: Env, i: nat, p: Progress)
    requires i % BatchSize == 0
    ensures p.summary.errors <= ImportFrom(env, i, p).summary.errors
  {
    ImportFromFacts(env, i, p);
  }

  /** An entry of the log stays in every extension of it. */
  lemma StaysInLog(e: ErrorEntry, log: seq<ErrorEntry>, later: seq<ErrorEntry>)
    requires e in log && log <= later
    ensures e in later
  {
    var n :| 0 <= n < |log| && log[n] == e;
    assert later[n] == e;
  }

  /** A batch that began keeps the entries its rows logged, whether it commits or rolls back. */
  lemma BatchKeepsRowErrors(env: Env, i: nat, p: Progress)
    requires i < |env.rows| && env.faults(i, Begin).None?
    ensures SummaryOf(BatchFrom(env, i, BatchEnd(env, i), p)).errors <= RunBatch(env, i, p).summary.errors
  {
  }

  /** `InvalidRowReportedFrom` for a whole run. */
  lemma InvalidRowReported(env: Env, t0: Table, k: nat)
    requires k < |env.rows| && env.validate(k).Invalid? && ReachesRow(env, 0, k)
    ensures LineError(k + 1, Join(env.validate(k).errors, "; ")) in Import(env, t0).summary.errors
  {
    InvalidRowReportedFrom(env, 0, Progress(EmptySummary, t0), k);
  }
}
