/**
 * The metadata catalog database: the tables esquemas_catalogados,
 * tabelas_catalogadas and colunas_catalogadas as sequences of rows in
 * insertion order, each with an id counter that hands out the next key.
 * The synchronisation script and both seeding scripts write to it.
 */
module CatalogDb {
  import opened Wrappers

  datatype SchemaRow = SchemaRow(id: int, nome: string)

  datatype TableRow = TableRow(
    id: int, nomeFisico: string, tipoObjeto: string,
    nomeNegocio: Option<string>, descricao: Option<string>, schemaId: int)

  datatype ColumnRow = ColumnRow(
    id: int, nomeFisico: string, tipoDado: string, nulo: bool, pk: bool,
    nomeNegocio: Option<string>, descricao: Option<string>, tabelaId: int)

  /** The contents of the three tables and their next keys. */
  datatype Catalog = Catalog(
    schemas: seq<SchemaRow>, tables: seq<TableRow>, columns: seq<ColumnRow>,
    nextSchemaId: int, nextTableId: int, nextColumnId: int)

  function SchemaKey(row: SchemaRow): int { row.id }
  function TableKey(row: TableRow): int { row.id }
  function ColumnKey(row: ColumnRow): int { row.id }

  /**
   * The keys of rows, in insertion order, are positive, strictly increasing
   * and below next: what an auto-increment key column hands out.
   */
  predicate Keyed<R>(rows: seq<R>, key: R -> int, next: int)
    decreases |rows|
  {
    if rows == [] then 1 <= next
    else key(rows[|rows| - 1]) < next && Keyed(rows[..|rows| - 1], key, key(rows[|rows| - 1]))
  }

  /** Some row of rows has this name. */
  predicate NamedIn(rows: seq<SchemaRow>, nome: string) {
    exists i :: 0 <= i < |rows| && rows[i].nome == nome
  }

  /** No two schema rows share a name (the UNIQUE constraint on nome). */
  predicate NamesUnique(rows: seq<SchemaRow>)
    decreases |rows|
  {
    rows == [] || (NamesUnique(rows[..|rows| - 1]) && !NamedIn(rows[..|rows| - 1], rows[|rows| - 1].nome))
  }

  /** Keys as an auto-increment column hands them out; schema names unique. */
  predicate WellFormed(c: Catalog) {
    Keyed(c.schemas, SchemaKey, c.nextSchemaId) && Keyed(c.tables, TableKey, c.nextTableId)
    && Keyed(c.columns, ColumnKey, c.nextColumnId) && NamesUnique(c.schemas)
  }

  predicate IsSchemaId(c: Catalog, id: int) {
    exists i :: 0 <= i < |c.schemas| && c.schemas[i].id == id
  }

  predicate IsTableId(c: Catalog, id: int) {
    exists i :: 0 <= i < |c.tables| && c.tables[i].id == id
  }

  predicate SchemaIn(schemas: seq<SchemaRow>, id: int) {
    exists i :: 0 <= i < |schemas| && schemas[i].id == id
  }

  predicate TableIn(tables: seq<TableRow>, id: int) {
    exists i :: 0 <= i < |tables| && tables[i].id == id
  }

  /** Every schema_id of tables names one of schemas. */
  predicate TablesReference(tables: seq<TableRow>, schemas: seq<SchemaRow>)
    decreases |tables|
  {
    tables == [] || (TablesReference(tables[..|tables| - 1], schemas) && SchemaIn(schemas, tables[|tables| - 1].schemaId))
  }

  /** Every tabela_id of columns names one of tables. */
  predicate ColumnsReference(columns: seq<ColumnRow>, tables: seq<TableRow>)
    decreases |columns|
  {
    columns == [] || (ColumnsReference(columns[..|columns| - 1], tables) && TableIn(tables, columns[|columns| - 1].tabelaId))
  }

  /** Every schema_id and tabela_id names an existing row: the declared foreign keys. */
  predicate References(c: Catalog) {
    TablesReference(c.tables, c.schemas) && ColumnsReference(c.columns, c.tables)
  }

  /** Freshly created tables: no rows, every key starts at 1. */
  function Empty(): (c: Catalog)
    ensures WellFormed(c) && References(c)
  {
    Catalog([], [], [], 1, 1, 1)
  }

  predicate HasSchemaNamed(c: Catalog, nome: string) {
    NamedIn(c.schemas, nome)
  }

  /** Appending a row under the next key keeps the keys in order. */
  lemma KeyedSnoc<R>(rows: seq<R>, key: R -> int, next: int, row: R)
    requires Keyed(rows, key, next) && key(row) == next
    ensures Keyed(rows + [row], key, next + 1)
  {
    assert (rows + [row])[..|rows|] == rows;
  }

  /** Every key stays below next. */
  lemma {:induction false} KeyedBelow<R>(rows: seq<R>, key: R -> int, next: int, i: nat)
    requires Keyed(rows, key, next) && i < |rows|
    ensures 1 <= key(rows[i]) < next
    decreases |rows|
  {
    var init := rows[..|rows| - 1];
    if i < |rows| - 1 {
      KeyedBelow(init, key, key(rows[|rows| - 1]), i);
      assert init[i] == rows[i];
    } else if init != [] {
      KeyedBelow(init, key, key(rows[|rows| - 1]), |init| - 1);
    }
  }

  /** Keys are distinct: the earlier row has the smaller key. */
  lemma {:induction false} KeyedIncreasing<R>(rows: seq<R>, key: R -> int, next: int, i: nat, j: nat)
    requires Keyed(rows, key, next) && i < j < |rows|
    ensures key(rows[i]) < key(rows[j])
    decreases |rows|
  {
    var init := rows[..|rows| - 1];
    if j < |rows| - 1 {
      KeyedIncreasing(init, key, key(rows[|rows| - 1]), i, j);
      assert init[i] == rows[i] && init[j] == rows[j];
    } else {
      KeyedBelow(init, key, key(rows[|rows| - 1]), i);
      assert init[i] == rows[i];
    }
  }

  /** The catalog after inserting a schema row under the next key. */
  function AddSchema(c: Catalog, nome: string): (r: Catalog)
    ensures IsSchemaId(r, c.nextSchemaId) && HasSchemaNamed(r, nome)
  {
    var row := SchemaRow(c.nextSchemaId, nome);
    var r := c.(schemas := c.schemas + [row], nextSchemaId := c.nextSchemaId + 1);
    assert r.schemas[|c.schemas|] == row;
    r
  }

  /** The catalog after inserting a table row under the next key. */
  function AddTable(
    c: Catalog, nomeFisico: string, tipoObjeto: string,
    nomeNegocio: Option<string>, descricao: Option<string>, schemaId: int): (r: Catalog)
    ensures IsTableId(r, c.nextTableId)
  {
    var row := TableRow(c.nextTableId, nomeFisico, tipoObjeto, nomeNegocio, descricao, schemaId);
    var r := c.(tables := c.tables + [row], nextTableId := c.nextTableId + 1);
    assert r.tables[|c.tables|] == row;
    r
  }

  /** The catalog after inserting a column row under the next key. */
  function AddColumn(
    c: Catalog, nomeFisico: string, tipoDado: string, nulo: bool, pk: bool,
    nomeNegocio: Option<string>, descricao: Option<string>, tabelaId: int): (r: Catalog)
  {
    var row := ColumnRow(c.nextColumnId, nomeFisico, tipoDado, nulo, pk, nomeNegocio, descricao, tabelaId);
    c.(columns := c.columns + [row], nextColumnId := c.nextColumnId + 1)
  }

  /** after holds every row of before, unchanged and in place; keys never go back. */
  predicate Extends(before: Catalog, after: Catalog) {
    before.schemas <= after.schemas && before.tables <= after.tables && before.columns <= after.columns
    && before.nextSchemaId <= after.nextSchemaId && before.nextTableId <= after.nextTableId
    && before.nextColumnId <= after.nextColumnId
  }

  lemma ExtendsTransitive(a: Catalog, b: Catalog, c: Catalog)
    requires Extends(a, b) && Extends(b, c)
    ensures Extends(a, c)
  {
  }

  /** Inserts only add rows. */
  lemma AddsExtend(c: Catalog, nome: string, nomeFisico: string, tipo: string, nulo: bool, pk: bool,
                   nomeNegocio: Option<string>, descricao: Option<string>, parent: int)
    ensures Extends(c, AddSchema(c, nome))
    ensures Extends(c, AddTable(c, nomeFisico, tipo, nomeNegocio, descricao, parent))
    ensures Extends(c, AddColumn(c, nomeFisico, tipo, nulo, pk, nomeNegocio, descricao, parent))
  {
  }

  /** Existing keys still name rows after more rows are added. */
  lemma IdsPersist(before: Catalog, after: Catalog, id: int)
    requires Extends(before, after)
    ensures IsSchemaId(before, id) ==> IsSchemaId(after, id)
    ensures IsTableId(before, id) ==> IsTableId(after, id)
  {
    if IsSchemaId(before, id) {
      var i :| 0 <= i < |before.schemas| && before.schemas[i].id == id;
      assert after.schemas[i] == before.schemas[i];
    }
    if IsTableId(before, id) {
      var i :| 0 <= i < |before.tables| && before.tables[i].id == id;
      assert after.tables[i] == before.tables[i];
    }
  }

  /** Foreign keys into schemas stay valid when schemas only grows. */
  lemma {:induction false} TablesReferenceGrow(tables: seq<TableRow>, schemas: seq<SchemaRow>, more: seq<SchemaRow>)
    requires TablesReference(tables, schemas) && schemas <= more
    ensures TablesReference(tables, more)
    decreases |tables|
  {
    if tables != [] {
      TablesReferenceGrow(tables[..|tables| - 1], schemas, more);
      var i :| 0 <= i < |schemas| && schemas[i].id == tables[|tables| - 1].schemaId;
      assert more[i] == schemas[i];
    }
  }

  /** Foreign keys into tables stay valid when tables only grows. */
  lemma {:induction false} ColumnsReferenceGrow(columns: seq<ColumnRow>, tables: seq<TableRow>, more: seq<TableRow>)
    requires ColumnsReference(columns, tables) && tables <= more
    ensures ColumnsReference(columns, more)
    decreases |columns|
  {
    if columns != [] {
      ColumnsReferenceGrow(columns[..|columns| - 1], tables, more);
      var i :| 0 <= i < |tables| && tables[i].id == columns[|columns| - 1].tabelaId;
      assert more[i] == tables[i];
    }
  }

  /** A table whose parent exists keeps keys in order and the catalog referentially intact. */
  lemma AddTableValid(
    c: Catalog, nomeFisico: string, tipoObjeto: string,
    nomeNegocio: Option<string>, descricao: Option<string>, schemaId: int)
    requires WellFormed(c) && References(c) && IsSchemaId(c, schemaId)
    ensures var r := AddTable(c, nomeFisico, tipoObjeto, nomeNegocio, descricao, schemaId);
      WellFormed(r) && References(r)
  {
    var r := AddTable(c, nomeFisico, tipoObjeto, nomeNegocio, descricao, schemaId);
    KeyedSnoc(c.tables, TableKey, c.nextTableId, r.tables[|c.tables|]);
    assert r.tables[..|c.tables|] == c.tables;
    assert SchemaIn(r.schemas, schemaId);
    ColumnsReferenceGrow(c.columns, c.tables, r.tables);
  }

  /** A column whose table exists keeps keys in order and the catalog referentially intact. */
  lemma AddColumnValid(
    c: Catalog, nomeFisico: string, tipoDado: string, nulo: bool, pk: bool,
    nomeNegocio: Option<string>, descricao: Option<string>, tabelaId: int)
    requires WellFormed(c) && References(c) && IsTableId(c, tabelaId)
    ensures var r := AddColumn(c, nomeFisico, tipoDado, nulo, pk, nomeNegocio, descricao, tabelaId);
      WellFormed(r) && References(r)
  {
    var r := AddColumn(c, nomeFisico, tipoDado, nulo, pk, nomeNegocio, descricao, tabelaId);
    KeyedSnoc(c.columns, ColumnKey, c.nextColumnId, r.columns[|c.columns|]);
    assert r.columns[..|c.columns|] == c.columns;
    assert TableIn(r.tables, tabelaId);
  }

  /** A schema with a new name keeps keys in order, names unique and the catalog referentially intact. */
  lemma AddSchemaValid(c: Catalog, nome: string)
    requires WellFormed(c) && References(c) && !HasSchemaNamed(c, nome)
    ensures WellFormed(AddSchema(c, nome)) && References(AddSchema(c, nome))
  {
    var r := AddSchema(c, nome);
    assert r.schemas[..|c.schemas|] == c.schemas;
    KeyedSnoc(c.schemas, SchemaKey, c.nextSchemaId, r.schemas[|c.schemas|]);
    TablesReferenceGrow(c.tables, c.schemas, r.schemas);
  }

  /** The catalog database as the scripts see it through their connection. */
  class CatalogStore {
    var schemas: seq<SchemaRow>
    var tables: seq<TableRow>
    var columns: seq<ColumnRow>
    var nextSchemaId: int
    var nextTableId: int
    var nextColumnId: int

    function Snapshot(): Catalog
      reads this
    {
      Catalog(schemas, tables, columns, nextSchemaId, nextTableId, nextColumnId)
    }

    /** Keys as WellFormed says, and the foreign keys the three tables declare. */
    ghost predicate Valid()
      reads this
    {
      WellFormed(Snapshot()) && References(Snapshot())
    }

    constructor (initial: Catalog)
      requires WellFormed(initial) && References(initial)
      ensures Valid() && Snapshot() == initial
    {
      schemas := initial.schemas;
      tables := initial.tables;
      columns := initial.columns;
      nextSchemaId := initial.nextSchemaId;
      nextTableId := initial.nextTableId;
      nextColumnId := initial.nextColumnId;
    }

    /** Overwrite the stored rows and counters with those of c. */
    method Load(c: Catalog)
      modifies this
      ensures Snapshot() == c
    {
      schemas, tables, columns := c.schemas, c.tables, c.columns;
      nextSchemaId, nextTableId, nextColumnId := c.nextSchemaId, c.nextTableId, c.nextColumnId;
    }

    /** recreate_tables: drop and create the three tables; AUTOINCREMENT keys start again at 1. */
    method Recreate()
      modifies this
      ensures Valid() && Snapshot() == Empty()
    {
      schemas, tables, columns := [], [], [];
      nextSchemaId, nextTableId, nextColumnId := 1, 1, 1;
    }

    /** INSERT INTO esquemas_catalogados; None when the UNIQUE constraint on nome rejects it. */
    method InsertSchema(nome: string) returns (id: Option<int>)
      requires Valid()
      modifies this
      ensures Valid()
      ensures HasSchemaNamed(old(Snapshot()), nome) ==> id == None && Snapshot() == old(Snapshot())
      ensures !HasSchemaNamed(old(Snapshot()), nome) ==>
        id == Some(old(nextSchemaId)) && Snapshot() == AddSchema(old(Snapshot()), nome)
    {
      if HasSchemaNamed(Snapshot(), nome) {
        id := None;
      } else {
        AddSchemaValid(Snapshot(), nome);
        id := Some(nextSchemaId);
        Load(AddSchema(Snapshot(), nome));
      }
    }

    /** INSERT INTO tabelas_catalogadas under an existing schema; the key is the cursor's lastrowid. */
    method InsertTable(
      nomeFisico: string, tipoObjeto: string,
      nomeNegocio: Option<string>, descricao: Option<string>, schemaId: int) returns (id: int)
      requires Valid() && IsSchemaId(Snapshot(), schemaId)
      modifies this
      ensures Valid()
      ensures id == old(nextTableId)
      ensures Snapshot() == AddTable(old(Snapshot()), nomeFisico, tipoObjeto, nomeNegocio, descricao, schemaId)
    {
      AddTableValid(Snapshot(), nomeFisico, tipoObjeto, nomeNegocio, descricao, schemaId);
      id := nextTableId;
      Load(AddTable(Snapshot(), nomeFisico, tipoObjeto, nomeNegocio, descricao, schemaId));
    }

    /** INSERT INTO colunas_catalogadas under an existing table. */
    method InsertColumn(
      nomeFisico: string, tipoDado: string, nulo: bool, pk: bool,
      nomeNegocio: Option<string>, descricao: Option<string>, tabelaId: int) returns (id: int)
      requires Valid() && IsTableId(Snapshot(), tabelaId)
      modifies this
      ensures Valid()
      ensures id == old(nextColumnId)
      ensures Snapshot() == AddColumn(old(Snapshot()), nomeFisico, tipoDado, nulo, pk, nomeNegocio, descricao, tabelaId)
    {
      AddColumnValid(Snapshot(), nomeFisico, tipoDado, nulo, pk, nomeNegocio, descricao, tabelaId);
      id := nextColumnId;
      Load(AddColumn(Snapshot(), nomeFisico, tipoDado, nulo, pk, nomeNegocio, descricao, tabelaId));
    }
  }
}
