/**
 * The catalog synchronisation script: it reads the extracted structure
 * (schemas, their tables, their columns) and creates every catalog row that
 * is missing, looking schemas up by name, tables by (name, schema) and
 * columns by (name, table). Existing rows are never changed.
 */
module CatalogSync {
  import opened Wrappers
  import opened CatalogDb

  datatype ColumnInput = ColumnInput(nome: string, tipo: string, nulo: bool, pk: bool)
  datatype TableInput = TableInput(nome: string, tipoObjeto: string, colunas: seq<ColumnInput>)
  datatype SchemaInput = SchemaInput(nome: string, tabelas: seq<TableInput>)

  /** The row tests the three lookups search with. */
  function SchemaNamed(nome: string): SchemaRow -> bool {
    (row: SchemaRow) => row.nome == nome
  }

  function TableNamedIn(nome: string, schemaId: int): TableRow -> bool {
    (row: TableRow) => row.nomeFisico == nome && row.schemaId == schemaId
  }

  function ColumnNamedIn(nome: string, tabelaId: int): ColumnRow -> bool {
    (row: ColumnRow) => row.nomeFisico == nome && row.tabelaId == tabelaId
  }

  /** The id of the first schema row with this name. */
  function SchemaIdOf(c: Catalog, nome: string): (r: Option<int>)
  {
    match FirstIndex(c.schemas, SchemaNamed(nome))
    case None => None
    case Some(i) => Some(c.schemas[i].id)
  }

  /** The id of the first table row with this physical name in this schema. */
  function TableIdOf(c: Catalog, nome: string, schemaId: int): (r: Option<int>)
  {
    match FirstIndex(c.tables, TableNamedIn(nome, schemaId))
    case None => None
    case Some(i) => Some(c.tables[i].id)
  }

  /** The id of the first column row with this physical name in this table. */
  function ColumnIdOf(c: Catalog, nome: string, tabelaId: int): (r: Option<int>)
  {
    match FirstIndex(c.columns, ColumnNamedIn(nome, tabelaId))
    case None => None
    case Some(i) => Some(c.columns[i].id)
  }

  /** Each lookup answers with the key of a matching row, and None only when no row matches. */
  lemma LookupsFindRows(c: Catalog, nome: string, parent: int)
    ensures SchemaIdOf(c, nome).None? <==> !HasSchemaNamed(c, nome)
    ensures SchemaIdOf(c, nome).Some? ==>
      exists i :: 0 <= i < |c.schemas| && c.schemas[i].nome == nome && c.schemas[i].id == SchemaIdOf(c, nome).value
    ensures TableIdOf(c, nome, parent).None? <==>
      forall i :: 0 <= i < |c.tables| ==> !(c.tables[i].nomeFisico == nome && c.tables[i].schemaId == parent)
    ensures TableIdOf(c, nome, parent).Some? ==>
      exists i :: (0 <= i < |c.tables| && c.tables[i].nomeFisico == nome
        && c.tables[i].schemaId == parent && c.tables[i].id == TableIdOf(c, nome, parent).value)
    ensures ColumnIdOf(c, nome, parent).None? <==>
      forall i :: 0 <= i < |c.columns| ==> !(c.columns[i].nomeFisico == nome && c.columns[i].tabelaId == parent)
    ensures ColumnIdOf(c, nome, parent).Some? ==>
      exists i :: (0 <= i < |c.columns| && c.columns[i].nomeFisico == nome
        && c.columns[i].tabelaId == parent && c.columns[i].id == ColumnIdOf(c, nome, parent).value)
  {
    FirstIndexSpec(c.schemas, SchemaNamed(nome));
    FirstIndexSpec(c.tables, TableNamedIn(nome, parent));
    FirstIndexSpec(c.columns, ColumnNamedIn(nome, parent));
  }

  /** A schema name not yet in the catalog is found, after its insertion, at the new key. */
  lemma SchemaInsertFound(c: Catalog, nome: string)
    requires SchemaIdOf(c, nome).None?
    ensures !HasSchemaNamed(c, nome)
    ensures SchemaIdOf(AddSchema(c, nome), nome) == Some(c.nextSchemaId)
  {
    LookupsFindRows(c, nome, 0);
    var r := AddSchema(c, nome);
    FirstIndexSnoc(c.schemas, r.schemas[|c.schemas|], SchemaNamed(nome));
  }

  /** A table not yet in its schema is found, after its insertion, at the new key. */
  lemma TableInsertFound(c: Catalog, nome: string, tipoObjeto: string, schemaId: int)
    requires TableIdOf(c, nome, schemaId).None?
    ensures TableIdOf(AddTable(c, nome, tipoObjeto, None, None, schemaId), nome, schemaId) == Some(c.nextTableId)
  {
    var r := AddTable(c, nome, tipoObjeto, None, None, schemaId);
    FirstIndexSnoc(c.tables, r.tables[|c.tables|], TableNamedIn(nome, schemaId));
  }

  /** A column not yet in its table is found, after its insertion, at the new key. */
  lemma ColumnInsertFound(c: Catalog, col: ColumnInput, tabelaId: int)
    requires ColumnIdOf(c, col.nome, tabelaId).None?
    ensures ColumnIdOf(AddColumn(c, col.nome, col.tipo, col.nulo, col.pk, None, None, tabelaId), col.nome, tabelaId)
      == Some(c.nextColumnId)
  {
    var r := AddColumn(c, col.nome, col.tipo, col.nulo, col.pk, None, None, tabelaId);
    FirstIndexSnoc(c.columns, r.columns[|c.columns|], ColumnNamedIn(col.nome, tabelaId));
  }

  /** No table gained a row and no key moved on. */
  predicate NoGrowth(before: Catalog, after: Catalog) {
    |after.schemas| <= |before.schemas| && |after.tables| <= |before.tables| && |after.columns| <= |before.columns|
    && after.nextSchemaId <= before.nextSchemaId && after.nextTableId <= before.nextTableId
    && after.nextColumnId <= before.nextColumnId
  }

  /** A run that only adds rows and adds none leaves the catalog as it was. */
  lemma NoGrowthUnchanged(before: Catalog, after: Catalog)
    requires Extends(before, after) && NoGrowth(before, after)
    ensures after == before
  {
    assert after.schemas == before.schemas;
    assert after.tables == before.tables;
    assert after.columns == before.columns;
  }

  /** A row found once is found again, under the same id, after more rows are added. */
  lemma LookupsPersist(before: Catalog, after: Catalog, nome: string, parent: int)
    requires Extends(before, after)
    ensures SchemaIdOf(before, nome).Some? ==> SchemaIdOf(after, nome) == SchemaIdOf(before, nome)
    ensures TableIdOf(before, nome, parent).Some? ==> TableIdOf(after, nome, parent) == TableIdOf(before, nome, parent)
    ensures ColumnIdOf(before, nome, parent).Some? ==> ColumnIdOf(after, nome, parent) == ColumnIdOf(before, nome, parent)
  {
    var ps := SchemaNamed(nome);
    var pt := TableNamedIn(nome, parent);
    var pc := ColumnNamedIn(nome, parent);
    assert after.schemas == before.schemas + after.schemas[|before.schemas|..];
    assert after.tables == before.tables + after.tables[|before.tables|..];
    assert after.columns == before.columns + after.columns[|before.columns|..];
    if FirstIndex(before.schemas, ps).Some? {
      FirstIndexAppend(before.schemas, after.schemas[|before.schemas|..], ps);
    }
    if FirstIndex(before.tables, pt).Some? {
      FirstIndexAppend(before.tables, after.tables[|before.tables|..], pt);
    }
    if FirstIndex(before.columns, pc).Some? {
      FirstIndexAppend(before.columns, after.columns[|before.columns|..], pc);
    }
  }

  /** Every column of cols has a row in the table tabelaId. */
  predicate ColumnsCovered(c: Catalog, tabelaId: int, cols: seq<ColumnInput>) {
    |cols| == 0 || (ColumnsCovered(c, tabelaId, cols[..|cols| - 1]) && ColumnIdOf(c, cols[|cols| - 1].nome, tabelaId).Some?)
  }

  /** The table has a row in the schema schemaId, and each of its columns a row in that table. */
  predicate TableCovered(c: Catalog, schemaId: int, t: TableInput) {
    TableIdOf(c, t.nome, schemaId).Some? && ColumnsCovered(c, TableIdOf(c, t.nome, schemaId).value, t.colunas)
  }

  predicate TablesCovered(c: Catalog, schemaId: int, ts: seq<TableInput>) {
    |ts| == 0 || (TablesCovered(c, schemaId, ts[..|ts| - 1]) && TableCovered(c, schemaId, ts[|ts| - 1]))
  }

  predicate SchemaCovered(c: Catalog, s: SchemaInput) {
    SchemaIdOf(c, s.nome).Some? && TablesCovered(c, SchemaIdOf(c, s.nome).value, s.tabelas)
  }

  /** Every schema, table and column of the input has its catalog row. */
  predicate Covers(c: Catalog, input: seq<SchemaInput>) {
    |input| == 0 || (Covers(c, input[..|input| - 1]) && SchemaCovered(c, input[|input| - 1]))
  }

  lemma {:induction false} ColumnsCoveredAt(c: Catalog, tabelaId: int, cols: seq<ColumnInput>, n: nat)
    requires ColumnsCovered(c, tabelaId, cols) && n < |cols|
    ensures ColumnIdOf(c, cols[n].nome, tabelaId).Some?
    decreases |cols|
  {
    if n < |cols| - 1 {
      ColumnsCoveredAt(c, tabelaId, cols[..|cols| - 1], n);
    }
  }

  lemma {:induction false} TablesCoveredAt(c: Catalog, schemaId: int, ts: seq<TableInput>, m: nat)
    requires TablesCovered(c, schemaId, ts) && m < |ts|
    ensures TableCovered(c, schemaId, ts[m])
    decreases |ts|
  {
    if m < |ts| - 1 {
      TablesCoveredAt(c, schemaId, ts[..|ts| - 1], m);
    }
  }

  lemma {:induction false} CoversAt(c: Catalog, input: seq<SchemaInput>, k: nat)
    requires Covers(c, input) && k < |input|
    ensures SchemaCovered(c, input[k])
    decreases |input|
  {
    if k < |input| - 1 {
      CoversAt(c, input[..|input| - 1], k);
    }
  }

  lemma {:induction false} ColumnsCoveredPersist(before: Catalog, after: Catalog, tabelaId: int, cols: seq<ColumnInput>)
    requires Extends(before, after) && ColumnsCovered(before, tabelaId, cols)
    ensures ColumnsCovered(after, tabelaId, cols)
    decreases |cols|
  {
    if |cols| > 0 {
      ColumnsCoveredPersist(before, after, tabelaId, cols[..|cols| - 1]);
      LookupsPersist(before, after, cols[|cols| - 1].nome, tabelaId);
    }
  }

  lemma TableCoveredPersist(before: Catalog, after: Catalog, schemaId: int, t: TableInput)
    requires Extends(before, after) && TableCovered(before, schemaId, t)
    ensures TableCovered(after, schemaId, t)
  {
    LookupsPersist(before, after, t.nome, schemaId);
    ColumnsCoveredPersist(before, after, TableIdOf(before, t.nome, schemaId).value, t.colunas);
  }

  lemma {:induction false} TablesCoveredPersist(before: Catalog, after: Catalog, schemaId: int, ts: seq<TableInput>)
    requires Extends(before, after) && TablesCovered(before, schemaId, ts)
    ensures TablesCovered(after, schemaId, ts)
    decreases |ts|
  {
    if |ts| > 0 {
      TablesCoveredPersist(before, after, schemaId, ts[..|ts| - 1]);
      TableCoveredPersist(before, after, schemaId, ts[|ts| - 1]);
    }
  }

  lemma SchemaCoveredPersist(before: Catalog, after: Catalog, s: SchemaInput)
    requires Extends(before, after) && SchemaCovered(before, s)
    ensures SchemaCovered(after, s)
  {
    LookupsPersist(before, after, s.nome, 0);
    TablesCoveredPersist(before, after, SchemaIdOf(before, s.nome).value, s.tabelas);
  }

  /** Coverage survives any run that only adds rows. */
  lemma {:induction false} CoversPersist(before: Catalog, after: Catalog, input: seq<SchemaInput>)
    requires Extends(before, after) && Covers(before, input)
    ensures Covers(after, input)
    decreases |input|
  {
    if |input| > 0 {
      CoversPersist(before, after, input[..|input| - 1]);
      SchemaCoveredPersist(before, after, input[|input| - 1]);
    }
  }

  /** One more input entry handled: coverage of the prefix carries over to the longer prefix. */
  lemma ColumnsCoveredGrow(before: Catalog, after: Catalog, tabelaId: int, cols: seq<ColumnInput>, n: nat)
    requires Extends(before, after) && n < |cols| && ColumnsCovered(before, tabelaId, cols[..n])
    requires ColumnIdOf(after, cols[n].nome, tabelaId).Some?
    ensures ColumnsCovered(after, tabelaId, cols[..n + 1])
  {
    ColumnsCoveredPersist(before, after, tabelaId, cols[..n]);
    assert cols[..n + 1][..n] == cols[..n];
  }

  lemma TablesCoveredGrow(before: Catalog, after: Catalog, schemaId: int, ts: seq<TableInput>, m: nat)
    requires Extends(before, after) && m < |ts| && TablesCovered(before, schemaId, ts[..m])
    requires TableCovered(after, schemaId, ts[m])
    ensures TablesCovered(after, schemaId, ts[..m + 1])
  {
    TablesCoveredPersist(before, after, schemaId, ts[..m]);
    assert ts[..m + 1][..m] == ts[..m];
  }

  lemma CoversGrow(before: Catalog, after: Catalog, input: seq<SchemaInput>, k: nat)
    requires Extends(before, after) && k < |input| && Covers(before, input[..k])
    requires SchemaCovered(after, input[k])
    ensures Covers(after, input[..k + 1])
  {
    CoversPersist(before, after, input[..k]);
    assert input[..k + 1][..k] == input[..k];
  }

  /**
   * What coverage means in rows: the schema row of each input schema, a
   * table row with the table's name under that schema's id, and a column
   * row with the column's name under that table's id.
   */
  lemma CoveredRowsExist(c: Catalog, input: seq<SchemaInput>, k: nat, m: nat, n: nat)
    requires Covers(c, input) && k < |input| && m < |input[k].tabelas| && n < |input[k].tabelas[m].colunas|
    ensures exists a, b, d ::
      0 <= a < |c.schemas| && 0 <= b < |c.tables| && 0 <= d < |c.columns|
      && c.schemas[a].nome == input[k].nome
      && c.tables[b].nomeFisico == input[k].tabelas[m].nome && c.tables[b].schemaId == c.schemas[a].id
      && c.columns[d].nomeFisico == input[k].tabelas[m].colunas[n].nome && c.columns[d].tabelaId == c.tables[b].id
  {
    var s := input[k];
    var t := s.tabelas[m];
    CoversAt(c, input, k);
    var sid := SchemaIdOf(c, s.nome).value;
    TablesCoveredAt(c, sid, s.tabelas, m);
    var tid := TableIdOf(c, t.nome, sid).value;
    ColumnsCoveredAt(c, tid, t.colunas, n);
    LookupsFindRows(c, s.nome, 0);
    LookupsFindRows(c, t.nome, sid);
    LookupsFindRows(c, t.colunas[n].nome, tid);
    var a :| 0 <= a < |c.schemas| && c.schemas[a].nome == s.nome && c.schemas[a].id == sid;
    var b :| 0 <= b < |c.tables| && c.tables[b].nomeFisico == t.nome && c.tables[b].schemaId == sid && c.tables[b].id == tid;
    var d :| 0 <= d < |c.columns| && c.columns[d].nomeFisico == t.colunas[n].nome && c.columns[d].tabelaId == tid;
  }

  // ------------------------------------------------------ the run as a function

  /** One column: kept when the table already has a column of that name, otherwise added with the input's fields. */
  function ColumnSynced(c: Catalog, tabelaId: int, col: ColumnInput): (r: Catalog)
    ensures Extends(c, r)
  {
    if ColumnIdOf(c, col.nome, tabelaId).Some? then c
    else AddColumn(c, col.nome, col.tipo, col.nulo, col.pk, None, None, tabelaId)
  }

  /** The column loop of one table, over the columns in order. */
  function ColumnsSynced(c: Catalog, tabelaId: int, cols: seq<ColumnInput>): (r: Catalog)
    ensures Extends(c, r)
    decreases |cols|
  {
    if cols == [] then c
    else ColumnSynced(ColumnsSynced(c, tabelaId, cols[..|cols| - 1]), tabelaId, cols[|cols| - 1])
  }

  /** The key the table is found under, or the key its insertion takes. */
  function TableKeyFor(c: Catalog, schemaId: int, t: TableInput): int {
    match TableIdOf(c, t.nome, schemaId)
    case Some(id) => id
    case None => c.nextTableId
  }

  /** The table row: kept when found in the schema, otherwise added with its tipo_objeto. */
  function TableEnsured(c: Catalog, schemaId: int, t: TableInput): (r: Catalog)
    ensures Extends(c, r)
  {
    if TableIdOf(c, t.nome, schemaId).Some? then c
    else AddTable(c, t.nome, t.tipoObjeto, None, None, schemaId)
  }

  /** One table: its row, then its columns under its key. */
  function TableSynced(c: Catalog, schemaId: int, t: TableInput): (r: Catalog)
    ensures Extends(c, r)
  {
    ColumnsSynced(TableEnsured(c, schemaId, t), TableKeyFor(c, schemaId, t), t.colunas)
  }

  /** The table loop of one schema. */
  function TablesSynced(c: Catalog, schemaId: int, ts: seq<TableInput>): (r: Catalog)
    ensures Extends(c, r)
    decreases |ts|
  {
    if ts == [] then c
    else TableSynced(TablesSynced(c, schemaId, ts[..|ts| - 1]), schemaId, ts[|ts| - 1])
  }

  /** The key the schema is found under, or the key its insertion takes. */
  function SchemaKeyFor(c: Catalog, nome: string): int {
    match SchemaIdOf(c, nome)
    case Some(id) => id
    case None => c.nextSchemaId
  }

  /** The schema row: kept when found by name, otherwise added. */
  function SchemaEnsured(c: Catalog, nome: string): (r: Catalog)
    ensures Extends(c, r)
  {
    if SchemaIdOf(c, nome).Some? then c else AddSchema(c, nome)
  }

  /** One schema: its row, then its tables under its key. */
  function SchemaSynced(c: Catalog, s: SchemaInput): (r: Catalog)
    ensures Extends(c, r)
  {
    TablesSynced(SchemaEnsured(c, s.nome), SchemaKeyFor(c, s.nome), s.tabelas)
  }

  /** The whole run over the structure, schema by schema. */
  function Synced(c: Catalog, input: seq<SchemaInput>): (r: Catalog)
    ensures Extends(c, r)
    decreases |input|
  {
    if input == [] then c
    else SchemaSynced(Synced(c, input[..|input| - 1]), input[|input| - 1])
  }

  lemma ColumnsSyncedStep(c: Catalog, tabelaId: int, cols: seq<ColumnInput>, n: nat)
    requires n < |cols|
    ensures ColumnsSynced(c, tabelaId, cols[..n + 1]) == ColumnSynced(ColumnsSynced(c, tabelaId, cols[..n]), tabelaId, cols[n])
  {
    assert cols[..n + 1][..n] == cols[..n];
  }

  lemma TablesSyncedStep(c: Catalog, schemaId: int, ts: seq<TableInput>, m: nat)
    requires m < |ts|
    ensures TablesSynced(c, schemaId, ts[..m + 1]) == TableSynced(TablesSynced(c, schemaId, ts[..m]), schemaId, ts[m])
  {
    assert ts[..m + 1][..m] == ts[..m];
  }

  lemma SyncedStep(c: Catalog, input: seq<SchemaInput>, k: nat)
    requires k < |input|
    ensures Synced(c, input[..k + 1]) == SchemaSynced(Synced(c, input[..k]), input[k])
  {
    assert input[..k + 1][..k] == input[..k];
  }

  /** After the column loop every input column has its row. */
  lemma {:induction false} ColumnsSyncedCovers(c: Catalog, tabelaId: int, cols: seq<ColumnInput>)
    ensures ColumnsCovered(ColumnsSynced(c, tabelaId, cols), tabelaId, cols)
    decreases |cols|
  {
    if cols != [] {
      var n := |cols| - 1;
      var mid := ColumnsSynced(c, tabelaId, cols[..n]);
      ColumnsSyncedCovers(c, tabelaId, cols[..n]);
      if ColumnIdOf(mid, cols[n].nome, tabelaId).None? {
        ColumnInsertFound(mid, cols[n], tabelaId);
      }
      ColumnsCoveredGrow(mid, ColumnsSynced(c, tabelaId, cols), tabelaId, cols, n);
      assert cols[..n + 1] == cols;
    }
  }

  /** When every input column already has its row, the column loop changes nothing. */
  lemma {:induction false} ColumnsSyncedNoGrowth(c: Catalog, tabelaId: int, cols: seq<ColumnInput>)
    requires ColumnsCovered(c, tabelaId, cols)
    ensures ColumnsSynced(c, tabelaId, cols) == c
    decreases |cols|
  {
    if cols != [] {
      ColumnsSyncedNoGrowth(c, tabelaId, cols[..|cols| - 1]);
    }
  }

  /** After one table, the table and all its columns have their rows. */
  lemma TableSyncedCovers(c: Catalog, schemaId: int, t: TableInput)
    ensures TableCovered(TableSynced(c, schemaId, t), schemaId, t)
  {
    var c1 := TableEnsured(c, schemaId, t);
    var tid := TableKeyFor(c, schemaId, t);
    if TableIdOf(c, t.nome, schemaId).None? {
      TableInsertFound(c, t.nome, t.tipoObjeto, schemaId);
    }
    LookupsPersist(c1, TableSynced(c, schemaId, t), t.nome, schemaId);
    ColumnsSyncedCovers(c1, tid, t.colunas);
  }

  lemma TableSyncedNoGrowth(c: Catalog, schemaId: int, t: TableInput)
    requires TableCovered(c, schemaId, t)
    ensures TableSynced(c, schemaId, t) == c
  {
    ColumnsSyncedNoGrowth(c, TableIdOf(c, t.nome, schemaId).value, t.colunas);
  }

  /** After the table loop every input table and its columns have their rows. */
  lemma {:induction false} TablesSyncedCovers(c: Catalog, schemaId: int, ts: seq<TableInput>)
    ensures TablesCovered(TablesSynced(c, schemaId, ts), schemaId, ts)
    decreases |ts|
  {
    if ts != [] {
      var m := |ts| - 1;
      var mid := TablesSynced(c, schemaId, ts[..m]);
      TablesSyncedCovers(c, schemaId, ts[..m]);
      TableSyncedCovers(mid, schemaId, ts[m]);
      TablesCoveredGrow(mid, TablesSynced(c, schemaId, ts), schemaId, ts, m);
      assert ts[..m + 1] == ts;
    }
  }

  /** When every input table is already covered, the table loop changes nothing. */
  lemma {:induction false} TablesSyncedNoGrowth(c: Catalog, schemaId: int, ts: seq<TableInput>)
    requires TablesCovered(c, schemaId, ts)
    ensures TablesSynced(c, schemaId, ts) == c
    decreases |ts|
  {
    if ts != [] {
      TablesSyncedNoGrowth(c, schemaId, ts[..|ts| - 1]);
      TableSyncedNoGrowth(c, schemaId, ts[|ts| - 1]);
    }
  }

  /** After one schema, the schema, its tables and their columns have their rows. */
  lemma SchemaSyncedCovers(c: Catalog, s: SchemaInput)
    ensures SchemaCovered(SchemaSynced(c, s), s)
  {
    var c1 := SchemaEnsured(c, s.nome);
    var sid := SchemaKeyFor(c, s.nome);
    if SchemaIdOf(c, s.nome).None? {
      SchemaInsertFound(c, s.nome);
    }
    LookupsPersist(c1, SchemaSynced(c, s), s.nome, 0);
    TablesSyncedCovers(c1, sid, s.tabelas);
  }

  lemma SchemaSyncedNoGrowth(c: Catalog, s: SchemaInput)
    requires SchemaCovered(c, s)
    ensures SchemaSynced(c, s) == c
  {
    TablesSyncedNoGrowth(c, SchemaIdOf(c, s.nome).value, s.tabelas);
  }

  /** After a run the whole input is covered. */
  lemma {:induction false} SyncedCovers(c: Catalog, input: seq<SchemaInput>)
    ensures Covers(Synced(c, input), input)
    decreases |input|
  {
    if input != [] {
      var k := |input| - 1;
      var mid := Synced(c, input[..k]);
      SyncedCovers(c, input[..k]);
      SchemaSyncedCovers(mid, input[k]);
      CoversGrow(mid, Synced(c, input), input, k);
      assert input[..k + 1] == input;
    }
  }

  /** A run over an input that is already covered changes nothing, so a second run is a no-op. */
  lemma {:induction false} SyncedNoGrowth(c: Catalog, input: seq<SchemaInput>)
    requires Covers(c, input)
    ensures Synced(c, input) == c
    decreases |input|
  {
    if input != [] {
      SyncedNoGrowth(c, input[..|input| - 1]);
      SchemaSyncedNoGrowth(c, input[|input| - 1]);
    }
  }

  // ------------------------------------------------------------ what a run adds

  /**
   * A column row the run may add for the table tabelaId: one of cols, with its
   * type, nullability and key flag, no business name or description, and the
   * row the lookup by (name, table) finds.
   */
  predicate ColumnFrom(c: Catalog, tabelaId: int, cols: seq<ColumnInput>, row: ColumnRow) {
    ColumnIdOf(c, row.nomeFisico, tabelaId) == Some(row.id)
    && exists col :: col in cols && row == ColumnRow(row.id, col.nome, col.tipo, col.nulo, col.pk, None, None, tabelaId)
  }

  /** A table row the run may add in the schema schemaId: one of ts, with its tipo_objeto, found by the lookup. */
  predicate TableFrom(c: Catalog, schemaId: int, ts: seq<TableInput>, row: TableRow) {
    TableIdOf(c, row.nomeFisico, schemaId) == Some(row.id)
    && exists t :: t in ts && row == TableRow(row.id, t.nome, t.tipoObjeto, None, None, schemaId)
  }

  /** A column row the run may add under one of the tables ts of the schema schemaId. */
  predicate ColumnUnder(c: Catalog, schemaId: int, ts: seq<TableInput>, row: ColumnRow) {
    exists t :: t in ts && TableIdOf(c, t.nome, schemaId) == Some(row.tabelaId) && ColumnFrom(c, row.tabelaId, t.colunas, row)
  }

  /** A schema row the run may add: one of input by name, found by the lookup. */
  predicate SchemaFrom(c: Catalog, input: seq<SchemaInput>, row: SchemaRow) {
    SchemaIdOf(c, row.nome) == Some(row.id) && exists s :: s in input && s.nome == row.nome
  }

  /** A table row the run may add under one of the input schemas. */
  predicate TableUnderSchema(c: Catalog, input: seq<SchemaInput>, row: TableRow) {
    exists s :: s in input && SchemaIdOf(c, s.nome) == Some(row.schemaId) && TableFrom(c, row.schemaId, s.tabelas, row)
  }

  /** A column row the run may add under a table of one of the input schemas. */
  predicate ColumnUnderSchema(c: Catalog, input: seq<SchemaInput>, row: ColumnRow) {
    exists s :: s in input && SchemaIdOf(c, s.nome).Some? && ColumnUnder(c, SchemaIdOf(c, s.nome).value, s.tabelas, row)
  }

  /** The rows after those of before are columns of cols in the table tabelaId; no other table grew. */
  predicate ColumnsAdded(before: Catalog, after: Catalog, tabelaId: int, cols: seq<ColumnInput>) {
    after.schemas == before.schemas && after.tables == before.tables
    && forall i :: |before.columns| <= i < |after.columns| ==> ColumnFrom(after, tabelaId, cols, after.columns[i])
  }

  /** The rows after those of before are tables of ts in the schema schemaId and their columns. */
  predicate TablesAdded(before: Catalog, after: Catalog, schemaId: int, ts: seq<TableInput>) {
    after.schemas == before.schemas
    && (forall i :: |before.tables| <= i < |after.tables| ==> TableFrom(after, schemaId, ts, after.tables[i]))
    && forall i :: |before.columns| <= i < |after.columns| ==> ColumnUnder(after, schemaId, ts, after.columns[i])
  }

  /** The rows after those of before are schemas of input, their tables and those tables' columns. */
  predicate SchemasAdded(before: Catalog, after: Catalog, input: seq<SchemaInput>) {
    (forall i :: |before.schemas| <= i < |after.schemas| ==> SchemaFrom(after, input, after.schemas[i]))
    && (forall i :: |before.tables| <= i < |after.tables| ==> TableUnderSchema(after, input, after.tables[i]))
    && forall i :: |before.columns| <= i < |after.columns| ==> ColumnUnderSchema(after, input, after.columns[i])
  }

  lemma ColumnFromPersist(c: Catalog, d: Catalog, tabelaId: int, cols: seq<ColumnInput>, more: seq<ColumnInput>, row: ColumnRow)
    requires Extends(c, d) && ColumnFrom(c, tabelaId, cols, row)
    requires forall col :: col in cols ==> col in more
    ensures ColumnFrom(d, tabelaId, more, row)
  {
    LookupsPersist(c, d, row.nomeFisico, tabelaId);
  }

  lemma TableFromPersist(c: Catalog, d: Catalog, schemaId: int, ts: seq<TableInput>, more: seq<TableInput>, row: TableRow)
    requires Extends(c, d) && TableFrom(c, schemaId, ts, row)
    requires forall t :: t in ts ==> t in more
    ensures TableFrom(d, schemaId, more, row)
  {
    LookupsPersist(c, d, row.nomeFisico, schemaId);
  }

  lemma ColumnUnderPersist(c: Catalog, d: Catalog, schemaId: int, ts: seq<TableInput>, more: seq<TableInput>, row: ColumnRow)
    requires Extends(c, d) && ColumnUnder(c, schemaId, ts, row)
    requires forall t :: t in ts ==> t in more
    ensures ColumnUnder(d, schemaId, more, row)
  {
    var t :| t in ts && TableIdOf(c, t.nome, schemaId) == Some(row.tabelaId) && ColumnFrom(c, row.tabelaId, t.colunas, row);
    LookupsPersist(c, d, t.nome, schemaId);
    ColumnFromPersist(c, d, row.tabelaId, t.colunas, t.colunas, row);
  }

  lemma SchemaFromPersist(c: Catalog, d: Catalog, input: seq<SchemaInput>, more: seq<SchemaInput>, row: SchemaRow)
    requires Extends(c, d) && SchemaFrom(c, input, row)
    requires forall s :: s in input ==> s in more
    ensures SchemaFrom(d, more, row)
  {
    LookupsPersist(c, d, row.nome, 0);
  }

  lemma TableUnderSchemaPersist(c: Catalog, d: Catalog, input: seq<SchemaInput>, more: seq<SchemaInput>, row: TableRow)
    requires Extends(c, d) && TableUnderSchema(c, input, row)
    requires forall s :: s in input ==> s in more
    ensures TableUnderSchema(d, more, row)
  {
    var s :| s in input && SchemaIdOf(c, s.nome) == Some(row.schemaId) && TableFrom(c, row.schemaId, s.tabelas, row);
    LookupsPersist(c, d, s.nome, 0);
    TableFromPersist(c, d, row.schemaId, s.tabelas, s.tabelas, row);
  }

  lemma ColumnUnderSchemaPersist(c: Catalog, d: Catalog, input: seq<SchemaInput>, more: seq<SchemaInput>, row: ColumnRow)
    requires Extends(c, d) && ColumnUnderSchema(c, input, row)
    requires forall s :: s in input ==> s in more
    ensures ColumnUnderSchema(d, more, row)
  {
    var s :| s in input && SchemaIdOf(c, s.nome).Some? && ColumnUnder(c, SchemaIdOf(c, s.nome).value, s.tabelas, row);
    LookupsPersist(c, d, s.nome, 0);
    ColumnUnderPersist(c, d, SchemaIdOf(c, s.nome).value, s.tabelas, s.tabelas, row);
  }

  /** The column loop adds only missing columns of the input, each with its own fields. */
  lemma {:induction false} ColumnsSyncedAdds(c: Catalog, tabelaId: int, cols: seq<ColumnInput>)
    ensures ColumnsAdded(c, ColumnsSynced(c, tabelaId, cols), tabelaId, cols)
    decreases |cols|
  {
    if cols != [] {
      var init := cols[..|cols| - 1];
      var last := cols[|cols| - 1];
      var mid := ColumnsSynced(c, tabelaId, init);
      var r := ColumnsSynced(c, tabelaId, cols);
      ColumnsSyncedAdds(c, tabelaId, init);
      assert r == ColumnSynced(mid, tabelaId, last);
      assert forall col :: col in init ==> col in cols;
      forall i | |c.columns| <= i < |r.columns|
        ensures ColumnFrom(r, tabelaId, cols, r.columns[i])
      {
        if i < |mid.columns| {
          ColumnFromPersist(mid, r, tabelaId, init, cols, mid.columns[i]);
        } else {
          ColumnInsertFound(mid, last, tabelaId);
        }
      }
    }
  }

  /** One table adds at most its own row, found by the lookup, and its missing columns under its key. */
  lemma TableSyncedAdds(c: Catalog, schemaId: int, t: TableInput)
    ensures TablesAdded(c, TableSynced(c, schemaId, t), schemaId, [t])
  {
    var c1 := TableEnsured(c, schemaId, t);
    var tid := TableKeyFor(c, schemaId, t);
    var r := TableSynced(c, schemaId, t);
    if TableIdOf(c, t.nome, schemaId).None? {
      TableInsertFound(c, t.nome, t.tipoObjeto, schemaId);
    }
    assert TableIdOf(c1, t.nome, schemaId) == Some(tid);
    LookupsPersist(c1, r, t.nome, schemaId);
    ColumnsSyncedAdds(c1, tid, t.colunas);
    forall i | |c.tables| <= i < |r.tables|
      ensures TableFrom(r, schemaId, [t], r.tables[i])
    {
      assert r.tables[i] == c1.tables[i];
    }
    forall i | |c.columns| <= i < |r.columns|
      ensures ColumnUnder(r, schemaId, [t], r.columns[i])
    {
      assert t in [t];
    }
  }

  /** The table loop adds only tables of the input and their columns. */
  lemma {:induction false} TablesSyncedAdds(c: Catalog, schemaId: int, ts: seq<TableInput>)
    ensures TablesAdded(c, TablesSynced(c, schemaId, ts), schemaId, ts)
    decreases |ts|
  {
    if ts != [] {
      var init := ts[..|ts| - 1];
      var last := ts[|ts| - 1];
      var mid := TablesSynced(c, schemaId, init);
      var r := TablesSynced(c, schemaId, ts);
      TablesSyncedAdds(c, schemaId, init);
      TableSyncedAdds(mid, schemaId, last);
      assert r == TableSynced(mid, schemaId, last);
      assert forall t :: t in init ==> t in ts;
      assert forall t :: t in [last] ==> t in ts;
      forall i | |c.tables| <= i < |r.tables|
        ensures TableFrom(r, schemaId, ts, r.tables[i])
      {
        if i < |mid.tables| {
          TableFromPersist(mid, r, schemaId, init, ts, mid.tables[i]);
        } else {
          TableFromPersist(r, r, schemaId, [last], ts, r.tables[i]);
        }
      }
      forall i | |c.columns| <= i < |r.columns|
        ensures ColumnUnder(r, schemaId, ts, r.columns[i])
      {
        if i < |mid.columns| {
          ColumnUnderPersist(mid, r, schemaId, init, ts, mid.columns[i]);
        } else {
          ColumnUnderPersist(r, r, schemaId, [last], ts, r.columns[i]);
        }
      }
    }
  }

  /** One schema adds at most its own row, found by name, then its tables and columns under its key. */
  lemma SchemaSyncedAdds(c: Catalog, s: SchemaInput)
    ensures SchemasAdded(c, SchemaSynced(c, s), [s])
  {
    var c1 := SchemaEnsured(c, s.nome);
    var sid := SchemaKeyFor(c, s.nome);
    var r := SchemaSynced(c, s);
    if SchemaIdOf(c, s.nome).None? {
      SchemaInsertFound(c, s.nome);
    }
    assert SchemaIdOf(c1, s.nome) == Some(sid);
    LookupsPersist(c1, r, s.nome, 0);
    TablesSyncedAdds(c1, sid, s.tabelas);
    assert s in [s];
    forall i | |c.schemas| <= i < |r.schemas|
      ensures SchemaFrom(r, [s], r.schemas[i])
    {
      assert r.schemas[i] == c1.schemas[i];
    }
    forall i | |c.tables| <= i < |r.tables|
      ensures TableUnderSchema(r, [s], r.tables[i])
    {
    }
    forall i | |c.columns| <= i < |r.columns|
      ensures ColumnUnderSchema(r, [s], r.columns[i])
    {
    }
  }

  /**
   * What a run adds: every new schema row is an input schema, every new table
   * row an input table of that schema with its tipo_objeto, and every new
   * column row an input column of that table with its type, nullability and
   * key flag. Each is the row its lookup finds, so none duplicates a row that
   * was already there.
   */
  lemma {:induction false} SyncedAddsInputRows(c: Catalog, input: seq<SchemaInput>)
    ensures SchemasAdded(c, Synced(c, input), input)
    decreases |input|
  {
    if input != [] {
      var init := input[..|input| - 1];
      var last := input[|input| - 1];
      var mid := Synced(c, init);
      var r := Synced(c, input);
      SyncedAddsInputRows(c, init);
      SchemaSyncedAdds(mid, last);
      assert r == SchemaSynced(mid, last);
      assert forall s :: s in init ==> s in input;
      assert forall s :: s in [last] ==> s in input;
      forall i | |c.schemas| <= i < |r.schemas|
        ensures SchemaFrom(r, input, r.schemas[i])
      {
        if i < |mid.schemas| {
          SchemaFromPersist(mid, r, init, input, mid.schemas[i]);
        } else {
          SchemaFromPersist(r, r, [last], input, r.schemas[i]);
        }
      }
      forall i | |c.tables| <= i < |r.tables|
        ensures TableUnderSchema(r, input, r.tables[i])
      {
        if i < |mid.tables| {
          TableUnderSchemaPersist(mid, r, init, input, mid.tables[i]);
        } else {
          TableUnderSchemaPersist(r, r, [last], input, r.tables[i]);
        }
      }
      forall i | |c.columns| <= i < |r.columns|
        ensures ColumnUnderSchema(r, input, r.columns[i])
      {
        if i < |mid.columns| {
          ColumnUnderSchemaPersist(mid, r, init, input, mid.columns[i]);
        } else {
          ColumnUnderSchemaPersist(r, r, [last], input, r.columns[i]);
        }
      }
    }
  }

  /** One column of one table: insert its row unless the table already has a column of that name. */
  method EnsureColumn(store: CatalogStore, tabelaId: int, col: ColumnInput)
    requires store.Valid() && IsTableId(store.Snapshot(), tabelaId)
    modifies store
    ensures store.Valid() && Extends(old(store.Snapshot()), store.Snapshot())
    ensures IsTableId(store.Snapshot(), tabelaId)
    ensures ColumnIdOf(store.Snapshot(), col.nome, tabelaId).Some?
    ensures ColumnIdOf(old(store.Snapshot()), col.nome, tabelaId).Some? ==> NoGrowth(old(store.Snapshot()), store.Snapshot())
    ensures ColumnIdOf(old(store.Snapshot()), col.nome, tabelaId).None? ==>
      store.Snapshot() == AddColumn(old(store.Snapshot()), col.nome, col.tipo, col.nulo, col.pk, None, None, tabelaId)
    ensures store.Snapshot() == ColumnSynced(old(store.Snapshot()), tabelaId, col)
  {
    ghost var c0 := store.Snapshot();
    if ColumnIdOf(store.Snapshot(), col.nome, tabelaId).None? {
      ColumnInsertFound(c0, col, tabelaId);
      var _ := store.InsertColumn(col.nome, col.tipo, col.nulo, col.pk, None, None, tabelaId);
      IdsPersist(c0, store.Snapshot(), tabelaId);
    }
  }

  /** The column loop of one table. */
  method SyncColumns(store: CatalogStore, tabelaId: int, cols: seq<ColumnInput>)
    requires store.Valid() && IsTableId(store.Snapshot(), tabelaId)
    modifies store
    ensures store.Valid() && Extends(old(store.Snapshot()), store.Snapshot())
    ensures ColumnsCovered(store.Snapshot(), tabelaId, cols)
    ensures ColumnsCovered(old(store.Snapshot()), tabelaId, cols) ==> NoGrowth(old(store.Snapshot()), store.Snapshot())
    ensures store.Snapshot() == ColumnsSynced(old(store.Snapshot()), tabelaId, cols)
  {
    ghost var c0 := store.Snapshot();
    var n := 0;
    while n < |cols|
      invariant 0 <= n <= |cols|
      invariant store.Valid() && store.Snapshot() == ColumnsSynced(c0, tabelaId, cols[..n])
    {
      IdsPersist(c0, store.Snapshot(), tabelaId);
      EnsureColumn(store, tabelaId, cols[n]);
      ColumnsSyncedStep(c0, tabelaId, cols, n);
      n := n + 1;
    }
    assert cols[..|cols|] == cols;
    ColumnsSyncedCovers(c0, tabelaId, cols);
    if ColumnsCovered(c0, tabelaId, cols) {
      ColumnsSyncedNoGrowth(c0, tabelaId, cols);
    }
  }

  /** Find the table row by (name, schema) or insert it; returns its key. */
  method EnsureTable(store: CatalogStore, schemaId: int, t: TableInput) returns (tabelaId: int)
    requires store.Valid() && IsSchemaId(store.Snapshot(), schemaId)
    modifies store
    ensures store.Valid() && Extends(old(store.Snapshot()), store.Snapshot())
    ensures TableIdOf(store.Snapshot(), t.nome, schemaId) == Some(tabelaId)
    ensures IsTableId(store.Snapshot(), tabelaId)
    ensures TableIdOf(old(store.Snapshot()), t.nome, schemaId).Some? ==> NoGrowth(old(store.Snapshot()), store.Snapshot())
    ensures TableIdOf(old(store.Snapshot()), t.nome, schemaId).None? ==>
      tabelaId == old(store.nextTableId)
      && store.Snapshot() == AddTable(old(store.Snapshot()), t.nome, t.tipoObjeto, None, None, schemaId)
    ensures store.Snapshot() == TableEnsured(old(store.Snapshot()), schemaId, t)
    ensures tabelaId == TableKeyFor(old(store.Snapshot()), schemaId, t)
  {
    ghost var c0 := store.Snapshot();
    var found := TableIdOf(store.Snapshot(), t.nome, schemaId);
    if found.None? {
      TableInsertFound(c0, t.nome, t.tipoObjeto, schemaId);
      tabelaId := store.InsertTable(t.nome, t.tipoObjeto, None, None, schemaId);
    } else {
      tabelaId := found.value;
      LookupsFindRows(c0, t.nome, schemaId);
    }
  }

  /** One table of one schema: its row, then its columns. */
  method SyncTable(store: CatalogStore, schemaId: int, t: TableInput)
    requires store.Valid() && IsSchemaId(store.Snapshot(), schemaId)
    modifies store
    ensures store.Valid() && Extends(old(store.Snapshot()), store.Snapshot())
    ensures TableCovered(store.Snapshot(), schemaId, t)
    ensures TableCovered(old(store.Snapshot()), schemaId, t) ==> NoGrowth(old(store.Snapshot()), store.Snapshot())
    ensures store.Snapshot() == TableSynced(old(store.Snapshot()), schemaId, t)
  {
    ghost var c0 := store.Snapshot();
    var tabelaId := EnsureTable(store, schemaId, t);
    SyncColumns(store, tabelaId, t.colunas);
    TableSyncedCovers(c0, schemaId, t);
    if TableCovered(c0, schemaId, t) {
      TableSyncedNoGrowth(c0, schemaId, t);
    }
  }

  /** Find the schema row by name or insert it; returns its key. */
  method EnsureSchema(store: CatalogStore, nome: string) returns (schemaId: int)
    requires store.Valid()
    modifies store
    ensures store.Valid() && Extends(old(store.Snapshot()), store.Snapshot())
    ensures SchemaIdOf(store.Snapshot(), nome) == Some(schemaId)
    ensures IsSchemaId(store.Snapshot(), schemaId)
    ensures SchemaIdOf(old(store.Snapshot()), nome).Some? ==> NoGrowth(old(store.Snapshot()), store.Snapshot())
    ensures SchemaIdOf(old(store.Snapshot()), nome).None? ==>
      schemaId == old(store.nextSchemaId) && store.Snapshot() == AddSchema(old(store.Snapshot()), nome)
    ensures store.Snapshot() == SchemaEnsured(old(store.Snapshot()), nome)
    ensures schemaId == SchemaKeyFor(old(store.Snapshot()), nome)
  {
    ghost var c0 := store.Snapshot();
    var found := SchemaIdOf(store.Snapshot(), nome);
    if found.None? {
      SchemaInsertFound(c0, nome);
      var inserted := store.InsertSchema(nome);
      schemaId := inserted.value;
    } else {
      LookupsFindRows(c0, nome, 0);
      schemaId := found.value;
    }
  }

  /** The table loop of one schema. */
  method SyncTables(store: CatalogStore, schemaId: int, ts: seq<TableInput>)
    requires store.Valid() && IsSchemaId(store.Snapshot(), schemaId)
    modifies store
    ensures store.Valid() && Extends(old(store.Snapshot()), store.Snapshot())
    ensures TablesCovered(store.Snapshot(), schemaId, ts)
    ensures TablesCovered(old(store.Snapshot()), schemaId, ts) ==> NoGrowth(old(store.Snapshot()), store.Snapshot())
    ensures store.Snapshot() == TablesSynced(old(store.Snapshot()), schemaId, ts)
  {
    ghost var c0 := store.Snapshot();
    var m := 0;
    while m < |ts|
      invariant 0 <= m <= |ts|
      invariant store.Valid() && store.Snapshot() == TablesSynced(c0, schemaId, ts[..m])
    {
      IdsPersist(c0, store.Snapshot(), schemaId);
      SyncTable(store, schemaId, ts[m]);
      TablesSyncedStep(c0, schemaId, ts, m);
      m := m + 1;
    }
    assert ts[..|ts|] == ts;
    TablesSyncedCovers(c0, schemaId, ts);
    if TablesCovered(c0, schemaId, ts) {
      TablesSyncedNoGrowth(c0, schemaId, ts);
    }
  }

  /** One schema: its row, then its tables. */
  method SyncSchema(store: CatalogStore, s: SchemaInput)
    requires store.Valid()
    modifies store
    ensures store.Valid() && Extends(old(store.Snapshot()), store.Snapshot())
    ensures SchemaCovered(store.Snapshot(), s)
    ensures SchemaCovered(old(store.Snapshot()), s) ==> NoGrowth(old(store.Snapshot()), store.Snapshot())
    ensures store.Snapshot() == SchemaSynced(old(store.Snapshot()), s)
  {
    ghost var c0 := store.Snapshot();
    var schemaId := EnsureSchema(store, s.nome);
    SyncTables(store, schemaId, s.tabelas);
    SchemaSyncedCovers(c0, s);
    if SchemaCovered(c0, s) {
      SchemaSyncedNoGrowth(c0, s);
    }
  }

  /** The schema loop over the structure read from the file. */
  method SyncSchemas(store: CatalogStore, schemas: seq<SchemaInput>)
    requires store.Valid()
    modifies store
    ensures store.Valid() && Extends(old(store.Snapshot()), store.Snapshot())
    ensures Covers(store.Snapshot(), schemas)
    ensures Covers(old(store.Snapshot()), schemas) ==> NoGrowth(old(store.Snapshot()), store.Snapshot())
    ensures store.Snapshot() == Synced(old(store.Snapshot()), schemas)
  {
    ghost var c0 := store.Snapshot();
    var k := 0;
    while k < |schemas|
      invariant 0 <= k <= |schemas|
      invariant store.Valid() && store.Snapshot() == Synced(c0, schemas[..k])
    {
      SyncSchema(store, schemas[k]);
      SyncedStep(c0, schemas, k);
      k := k + 1;
    }
    assert schemas[..|schemas|] == schemas;
    SyncedCovers(c0, schemas);
    if Covers(c0, schemas) {
      SyncedNoGrowth(c0, schemas);
    }
  }

  /**
   * sincronizar_catalogo: None stands for a missing structure file, which
   * ends the run before any change. Otherwise every schema, table and column
   * of the structure gets its row; nothing is changed or removed, and a
   * structure that is already covered adds nothing. The rows it adds are
   * exactly those of the structure that were missing, with the structure's
   * own fields, each under the key its parent's lookup finds.
   */
  method Synchronize(store: CatalogStore, structure: Option<seq<SchemaInput>>)
    requires store.Valid()
    modifies store
    ensures store.Valid() && Extends(old(store.Snapshot()), store.Snapshot())
    ensures structure.None? ==> store.Snapshot() == old(store.Snapshot())
    ensures structure.Some? ==> Covers(store.Snapshot(), structure.value)
    ensures structure.Some? && Covers(old(store.Snapshot()), structure.value) ==>
      store.Snapshot() == old(store.Snapshot())
    ensures structure.Some? ==> store.Snapshot() == Synced(old(store.Snapshot()), structure.value)
    ensures structure.Some? ==> SchemasAdded(old(store.Snapshot()), store.Snapshot(), structure.value)
  {
    if structure.None? {
      return;
    }
    ghost var c0 := store.Snapshot();
    SyncSchemas(store, structure.value);
    ghost var r := store.Snapshot();
    if Covers(c0, structure.value) {
      SyncedNoGrowth(c0, structure.value);
    }
    SyncedAddsInputRows(c0, structure.value);
    assert SchemasAdded(c0, r, structure.value);
  }
}
