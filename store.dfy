/**
 * The `Ventas` sales table as the import sees it, and the database connection whose
 * transactions the batch committer opens, commits and rolls back.
 */
module SalesStore {

  /**
   * What a stored sale names as its product: the command-line importer stores the resolved
   * `IdProducto`, the HTTP import stores the raw `Producto` text.
   */
  datatype ProductRef = ProductId(id: int) | ProductName(name: string)

  /** The columns of a stored sale besides `IdVenta`; together they are its natural key. */
  datatype Sale = Sale(cliente: string, product: ProductRef, fecha: string, monto: real)

  /**
   * The sales table: records stored under an explicit `IdVenta`, and records inserted without
   * one (their store-assigned ids are not modelled).
   */
  datatype Table = Table(keyed: map<string, Sale>, unkeyed: multiset<Sale>) {

    /** The number of stored records. */
    function Size(): nat {
      |keyed| + |unkeyed|
    }

    /** The existence query on `(IdCliente, product, FechaVenta, Monto)` over all records. */
    predicate HasNaturalKey(s: Sale) {
      s in unkeyed || s in keyed.Values
    }

    /** `INSERT … ON DUPLICATE KEY UPDATE`: the record under `id` becomes `s`. */
    function Upsert(id: string, s: Sale): Table {
      Table(keyed[id := s], unkeyed)
    }

    /** A plain `INSERT` without `IdVenta`: one more record holding `s`. */
    function Insert(s: Sale): Table {
      Table(keyed, unkeyed + multiset{s})
    }
  }

  /**
   * An upsert leaves exactly one record under `id`, holding `s`, touches no other record, and
   * grows the table only when `id` was new.
   */
  lemma UpsertEffect(t: Table, id: string, s: Sale)
    ensures var u := t.Upsert(id, s);
            && id in u.keyed && u.keyed[id] == s && u.HasNaturalKey(s)
            && u.keyed.Keys == t.keyed.Keys + {id} && u.unkeyed == t.unkeyed
            && (forall other :: other in t.keyed && other != id ==> u.keyed[other] == t.keyed[other])
            && u.Size() == t.Size() + (if id in t.keyed then 0 else 1)
  {
  }

  /**
   * An insert adds one record holding `s` and touches no other: every natural key that existed
   * still exists.
   */
  lemma InsertEffect(t: Table, s: Sale)
    ensures var u := t.Insert(s);
            && u.keyed == t.keyed && u.unkeyed == t.unkeyed + multiset{s}
            && u.Size() == t.Size() + 1 && u.HasNaturalKey(s)
            && (forall x :: t.HasNaturalKey(x) ==> u.HasNaturalKey(x))
  {
  }

  /**
   * A connection to the store. `snapshot` is the table as it was when the open transaction
   * began; a rollback restores it.
   */
  class Connection {
    var table: Table
    var snapshot: Table
    var inTransaction: bool

    constructor (initial: Table)
      ensures table == initial && !inTransaction
    {
      table := initial;
      snapshot := initial;
      inTransaction := false;
    }

    /** `beginTransaction`: remember the current table. */
    method BeginTransaction()
      requires !inTransaction
      modifies this
      ensures inTransaction && snapshot == table && table == old(table)
    {
      inTransaction := true;
      snapshot := table;
    }

    /** `commit`: keep every change made since the transaction began. */
    method Commit()
      requires inTransaction
      modifies this
      ensures !inTransaction && table == old(table)
    {
      inTransaction := false;
    }

    /** `rollback`: undo every change made since the transaction began. */
    method Rollback()
      requires inTransaction
      modifies this
      ensures !inTransaction && table == old(snapshot)
    {
      inTransaction := false;
      table := snapshot;
    }

    /** The upsert statement keyed by `IdVenta`. */
    method UpsertById(id: string, s: Sale)
      modifies this`table
      ensures table == old(table).Upsert(id, s)
    {
      table := table.Upsert(id, s);
    }

    /** `SELECT IdVenta … WHERE <natural key> LIMIT 1`, answering whether a row came back. */
    method ExistsByNaturalKey(s: Sale) returns (found: bool)
      ensures found <==> s in table.unkeyed || s in table.keyed.Values
    {
      found := table.HasNaturalKey(s);
    }

    /** The insert statement without `IdVenta`. */
    method InsertKeyless(s: Sale)
      modifies this`table
      ensures table == old(table).Insert(s)
    {
      table := table.Insert(s);
    }
  }
}
