/**
 * The two seeding scripts (backend/scripts/populate_db.py and
 * scripts/populate_db.py): drop and recreate the three catalog tables, then
 * walk a dictionary of business areas, inserting one schema per area, one
 * table per table theme and one column per column tuple. The scripts differ
 * only in their theme dictionaries, which live in seed_backend.dfy and
 * seed_scripts.dfy.
 */
module CatalogSeed {
  import opened Wrappers
  import opened Text
  import opened CatalogDb

  /** A column tuple: physical name, data type, business name, description, is_pk. */
  datatype ColumnTheme = ColumnTheme(nome: string, tipo: string, negocio: string, descricao: string, pk: bool)

  /** A table theme: name, type ("DIM" or "FAT"), description and its column tuples. */
  datatype TableTheme = TableTheme(name: string, kind: string, description: string, columns: seq<ColumnTheme>)

  /** One dictionary entry: the area (the key), its schema prefix and its table themes. */
  datatype Theme = Theme(area: string, schemaPrefix: string, tableThemes: seq<TableTheme>)

  /** The schema name `<schema_prefix>_<AREA>`. */
  function SchemaName(t: Theme): string {
    t.schemaPrefix + "_" + Upper(t.area)
  }

  /** With a two-letter prefix, the fourth character is the area's first letter, upper-cased. */
  lemma SchemaNameInitial(t: Theme)
    requires |t.schemaPrefix| == 2 && t.area != []
    ensures |SchemaName(t)| > 3 && SchemaName(t)[3] == UpperChar(t.area[0])
  {
  }

  /** The physical table name `TBL_<type>_<NAME>`. */
  function PhysicalName(t: TableTheme): string {
    "TBL_" + t.kind + "_" + Upper(t.name)
  }

  /** The business name of a table: a dimension for "DIM", a fact table otherwise. */
  function BusinessName(t: TableTheme): string {
    (if t.kind == "DIM" then "Dimensão de" else "Fato") + " " + t.name
  }

  /** The row a column tuple becomes: a primary key is not nullable, every other column is. */
  function ColumnRowFor(id: int, tabelaId: int, col: ColumnTheme): ColumnRow {
    ColumnRow(id, col.nome, col.tipo, !col.pk, col.pk, Some(col.negocio), Some(col.descricao), tabelaId)
  }

  /** The row a table theme becomes; tipo_objeto is always 'TABLE'. */
  function TableRowFor(id: int, schemaId: int, t: TableTheme): TableRow {
    TableRow(id, PhysicalName(t), "TABLE", Some(BusinessName(t)), Some(t.description), schemaId)
  }

  // ---------------------------------------------------------------------------
  // What the three nested loops do, one insert at a time.
  // ---------------------------------------------------------------------------

  /** The column loop of one table. */
  function SeedColumns(c: Catalog, tabelaId: int, cols: seq<ColumnTheme>): Catalog
    decreases |cols|
  {
    if cols == [] then c
    else
      var col := cols[0];
      SeedColumns(AddColumn(c, col.nome, col.tipo, !col.pk, col.pk, Some(col.negocio), Some(col.descricao), tabelaId),
                  tabelaId, cols[1..])
  }

  /** The table loop of one schema: each table row, then its columns under the key just allocated. */
  function SeedTables(c: Catalog, schemaId: int, ts: seq<TableTheme>): Catalog
    decreases |ts|
  {
    if ts == [] then c
    else
      var t := ts[0];
      var withTable := AddTable(c, PhysicalName(t), "TABLE", Some(BusinessName(t)), Some(t.description), schemaId);
      SeedTables(SeedColumns(withTable, c.nextTableId, t.columns), schemaId, ts[1..])
  }

  /**
   * populate_data: each theme's schema row, then its tables under the key
   * just allocated. None when a schema name is already taken, where the
   * UNIQUE constraint makes the insert raise.
   */
  function Populate(c: Catalog, themes: seq<Theme>): Option<Catalog>
    decreases |themes|
  {
    if themes == [] then Some(c)
    else if HasSchemaNamed(c, SchemaName(themes[0])) then None
    else Populate(SeedTables(AddSchema(c, SchemaName(themes[0])), c.nextSchemaId, themes[0].tableThemes), themes[1..])
  }

  // ---------------------------------------------------------------------------
  // The same result in closed form: which rows, under which keys.
  // ---------------------------------------------------------------------------

  /** The column rows of one table, keyed from next on, all under tabelaId. */
  function ColumnRows(next: int, tabelaId: int, cols: seq<ColumnTheme>): (r: seq<ColumnRow>)
    ensures |r| == |cols|
    decreases |cols|
  {
    if cols == [] then [] else [ColumnRowFor(next, tabelaId, cols[0])] + ColumnRows(next + 1, tabelaId, cols[1..])
  }

  /** The table rows of one schema, keyed from next on, all under schemaId. */
  function TableRows(next: int, schemaId: int, ts: seq<TableTheme>): (r: seq<TableRow>)
    ensures |r| == |ts|
    decreases |ts|
  {
    if ts == [] then [] else [TableRowFor(next, schemaId, ts[0])] + TableRows(next + 1, schemaId, ts[1..])
  }

  /** The schema rows of the themes, keyed from next on. */
  function SchemaRows(next: int, themes: seq<Theme>): (r: seq<SchemaRow>)
    ensures |r| == |themes|
    decreases |themes|
  {
    if themes == [] then [] else [SchemaRow(next, SchemaName(themes[0]))] + SchemaRows(next + 1, themes[1..])
  }

  /** The i-th closed-form column row is tuple i under key next + i. */
  lemma {:induction false} ColumnRowsAt(next: int, tabelaId: int, cols: seq<ColumnTheme>)
    ensures forall i :: 0 <= i < |cols| ==> ColumnRows(next, tabelaId, cols)[i] == ColumnRowFor(next + i, tabelaId, cols[i])
    decreases |cols|
  {
    if cols != [] {
      ColumnRowsAt(next + 1, tabelaId, cols[1..]);
    }
  }

  /** The i-th closed-form table row is theme i under key next + i. */
  lemma {:induction false} TableRowsAt(next: int, schemaId: int, ts: seq<TableTheme>)
    ensures forall i :: 0 <= i < |ts| ==> TableRows(next, schemaId, ts)[i] == TableRowFor(next + i, schemaId, ts[i])
    decreases |ts|
  {
    if ts != [] {
      TableRowsAt(next + 1, schemaId, ts[1..]);
    }
  }

  /** The i-th closed-form schema row carries theme i's name under key next + i. */
  lemma {:induction false} SchemaRowsAt(next: int, themes: seq<Theme>)
    ensures forall i :: 0 <= i < |themes| ==> SchemaRows(next, themes)[i] == SchemaRow(next + i, SchemaName(themes[i]))
    decreases |themes|
  {
    if themes != [] {
      SchemaRowsAt(next + 1, themes[1..]);
    }
  }

  /** The number of column tuples of the table themes. */
  function ColumnCount(ts: seq<TableTheme>): nat
    decreases |ts|
  {
    if ts == [] then 0 else |ts[0].columns| + ColumnCount(ts[1..])
  }

  /** The number of table themes of all themes. */
  function ThemesTableCount(themes: seq<Theme>): nat
    decreases |themes|
  {
    if themes == [] then 0 else |themes[0].tableThemes| + ThemesTableCount(themes[1..])
  }

  /** The number of column tuples of all themes. */
  function ThemesColumnCount(themes: seq<Theme>): nat
    decreases |themes|
  {
    if themes == [] then 0 else ColumnCount(themes[0].tableThemes) + ThemesColumnCount(themes[1..])
  }

  lemma {:induction false} ColumnCountAppend(a: seq<TableTheme>, b: seq<TableTheme>)
    ensures ColumnCount(a + b) == ColumnCount(a) + ColumnCount(b)
    decreases |a|
  {
    if a != [] {
      assert (a + b)[1..] == a[1..] + b;
      ColumnCountAppend(a[1..], b);
    } else {
      assert a + b == b;
    }
  }

  lemma {:induction false} ThemesCountAppend(a: seq<Theme>, b: seq<Theme>)
    ensures ThemesTableCount(a + b) == ThemesTableCount(a) + ThemesTableCount(b)
    ensures ThemesColumnCount(a + b) == ThemesColumnCount(a) + ThemesColumnCount(b)
    decreases |a|
  {
    if a != [] {
      assert (a + b)[1..] == a[1..] + b;
      ThemesCountAppend(a[1..], b);
    } else {
      assert a + b == b;
    }
  }

  /** The column rows of consecutive tables: the k-th table's columns sit under key nextTable + k. */
  function TablesColumnRows(nextColumn: int, nextTable: int, ts: seq<TableTheme>): seq<ColumnRow>
    decreases |ts|
  {
    if ts == [] then []
    else ColumnRows(nextColumn, nextTable, ts[0].columns)
         + TablesColumnRows(nextColumn + |ts[0].columns|, nextTable + 1, ts[1..])
  }

  /** The table rows of consecutive schemas: the k-th theme's tables sit under key nextSchema + k. */
  function ThemesTableRows(nextSchema: int, nextTable: int, themes: seq<Theme>): seq<TableRow>
    decreases |themes|
  {
    if themes == [] then []
    else TableRows(nextTable, nextSchema, themes[0].tableThemes)
         + ThemesTableRows(nextSchema + 1, nextTable + |themes[0].tableThemes|, themes[1..])
  }

  /** The column rows of all themes, table after table. */
  function ThemesColumnRows(nextTable: int, nextColumn: int, themes: seq<Theme>): seq<ColumnRow>
    decreases |themes|
  {
    if themes == [] then []
    else TablesColumnRows(nextColumn, nextTable, themes[0].tableThemes)
         + ThemesColumnRows(nextTable + |themes[0].tableThemes|, nextColumn + ColumnCount(themes[0].tableThemes), themes[1..])
  }

  /** No two themes yield the same schema name. */
  predicate DistinctNames(themes: seq<Theme>) {
    forall i, j :: 0 <= i < j < |themes| ==> SchemaName(themes[i]) != SchemaName(themes[j])
  }

  /** No theme's schema name is already in the catalog. */
  predicate FreshNames(c: Catalog, themes: seq<Theme>) {
    forall i :: 0 <= i < |themes| ==> !HasSchemaNamed(c, SchemaName(themes[i]))
  }

  lemma AppendAssoc<T>(a: seq<T>, b: seq<T>, c: seq<T>)
    ensures (a + b) + c == a + (b + c)
  {
  }

  /** The column loop appends exactly the column rows of its tuples, keyed consecutively. */
  lemma {:induction false} SeedColumnsRows(c: Catalog, tabelaId: int, cols: seq<ColumnTheme>)
    ensures SeedColumns(c, tabelaId, cols)
      == c.(columns := c.columns + ColumnRows(c.nextColumnId, tabelaId, cols), nextColumnId := c.nextColumnId + |cols|)
    decreases |cols|
  {
    if cols == [] {
      assert c.columns + [] == c.columns;
    } else {
      var col := cols[0];
      var c1 := AddColumn(c, col.nome, col.tipo, !col.pk, col.pk, Some(col.negocio), Some(col.descricao), tabelaId);
      SeedColumnsRows(c1, tabelaId, cols[1..]);
      assert c1.columns == c.columns + [ColumnRowFor(c.nextColumnId, tabelaId, col)];
    }
  }

  /** One table theme: its row under the next key, then its columns under that key. */
  lemma SeedTablesStep(c: Catalog, schemaId: int, ts: seq<TableTheme>) returns (c2: Catalog)
    requires ts != []
    ensures SeedTables(c, schemaId, ts) == SeedTables(c2, schemaId, ts[1..])
    ensures c2.schemas == c.schemas && c2.nextSchemaId == c.nextSchemaId
    ensures c2.tables == c.tables + [TableRowFor(c.nextTableId, schemaId, ts[0])] && c2.nextTableId == c.nextTableId + 1
    ensures c2.columns == c.columns + ColumnRows(c.nextColumnId, c.nextTableId, ts[0].columns)
    ensures c2.nextColumnId == c.nextColumnId + |ts[0].columns|
  {
    var t := ts[0];
    var c1 := AddTable(c, PhysicalName(t), "TABLE", Some(BusinessName(t)), Some(t.description), schemaId);
    c2 := SeedColumns(c1, c.nextTableId, t.columns);
    SeedColumnsRows(c1, c.nextTableId, t.columns);
  }

  /** The table loop appends the table rows keyed consecutively, and each table's columns under its key. */
  lemma {:induction false} SeedTablesRows(c: Catalog, schemaId: int, ts: seq<TableTheme>)
    ensures var r := SeedTables(c, schemaId, ts);
      r.schemas == c.schemas && r.nextSchemaId == c.nextSchemaId
      && r.tables == c.tables + TableRows(c.nextTableId, schemaId, ts)
      && r.columns == c.columns + TablesColumnRows(c.nextColumnId, c.nextTableId, ts)
      && r.nextTableId == c.nextTableId + |ts| && r.nextColumnId == c.nextColumnId + ColumnCount(ts)
    decreases |ts|
  {
    if ts == [] {
      assert c.tables + [] == c.tables && c.columns + [] == c.columns;
    } else {
      var t := ts[0];
      var c2 := SeedTablesStep(c, schemaId, ts);
      SeedTablesRows(c2, schemaId, ts[1..]);
      AppendAssoc(c.tables, [TableRowFor(c.nextTableId, schemaId, t)], TableRows(c.nextTableId + 1, schemaId, ts[1..]));
      AppendAssoc(c.columns, ColumnRows(c.nextColumnId, c.nextTableId, t.columns),
                  TablesColumnRows(c.nextColumnId + |t.columns|, c.nextTableId + 1, ts[1..]));
    }
  }

  /** Inserting the themes' schemas fails exactly when two themes share a name or one is already taken. */
  lemma {:induction false} PopulateSucceeds(c: Catalog, themes: seq<Theme>)
    ensures Populate(c, themes).Some? <==> DistinctNames(themes) && FreshNames(c, themes)
    decreases |themes|
  {
    if themes != [] {
      var name := SchemaName(themes[0]);
      if !HasSchemaNamed(c, name) {
        var c1 := SeedTables(AddSchema(c, name), c.nextSchemaId, themes[0].tableThemes);
        SeedTablesRows(AddSchema(c, name), c.nextSchemaId, themes[0].tableThemes);
        PopulateSucceeds(c1, themes[1..]);
        assert c1.schemas == c.schemas + [SchemaRow(c.nextSchemaId, name)];
        forall n: string
          ensures HasSchemaNamed(c1, n) <==> HasSchemaNamed(c, n) || n == name
        {
          if HasSchemaNamed(c, n) {
            var i :| 0 <= i < |c.schemas| && c.schemas[i].nome == n;
            assert c1.schemas[i] == c.schemas[i];
          }
          if n == name {
            assert c1.schemas[|c.schemas|].nome == n;
          }
        }
        assert forall i :: 0 < i < |themes| ==> themes[1..][i - 1] == themes[i];
      } else {
        assert !FreshNames(c, themes) by { assert themes[0] == themes[0]; }
      }
    }
  }

  /** One theme of a successful populate adds its schema row under the next key. */
  lemma PopulateStepSchemas(c: Catalog, themes: seq<Theme>) returns (c1: Catalog)
    requires themes != [] && Populate(c, themes).Some?
    ensures Populate(c, themes) == Populate(c1, themes[1..])
    ensures c1.schemas == c.schemas + [SchemaRow(c.nextSchemaId, SchemaName(themes[0]))]
    ensures c1.nextSchemaId == c.nextSchemaId + 1
  {
    var c0 := AddSchema(c, SchemaName(themes[0]));
    c1 := SeedTables(c0, c.nextSchemaId, themes[0].tableThemes);
    SeedTablesRows(c0, c.nextSchemaId, themes[0].tableThemes);
  }

  /** One theme of a successful populate adds its table rows under the schema key just allocated. */
  lemma PopulateStepTables(c: Catalog, themes: seq<Theme>) returns (c1: Catalog)
    requires themes != [] && Populate(c, themes).Some?
    ensures Populate(c, themes) == Populate(c1, themes[1..])
    ensures c1.tables == c.tables + TableRows(c.nextTableId, c.nextSchemaId, themes[0].tableThemes)
    ensures c1.nextSchemaId == c.nextSchemaId + 1
    ensures c1.nextTableId == c.nextTableId + |themes[0].tableThemes|
  {
    var c0 := AddSchema(c, SchemaName(themes[0]));
    c1 := SeedTables(c0, c.nextSchemaId, themes[0].tableThemes);
    SeedTablesRows(c0, c.nextSchemaId, themes[0].tableThemes);
  }

  /** One theme of a successful populate adds its column rows under the table keys just allocated. */
  lemma PopulateStepColumns(c: Catalog, themes: seq<Theme>) returns (c1: Catalog)
    requires themes != [] && Populate(c, themes).Some?
    ensures Populate(c, themes) == Populate(c1, themes[1..])
    ensures c1.columns == c.columns + TablesColumnRows(c.nextColumnId, c.nextTableId, themes[0].tableThemes)
    ensures c1.nextTableId == c.nextTableId + |themes[0].tableThemes|
    ensures c1.nextColumnId == c.nextColumnId + ColumnCount(themes[0].tableThemes)
  {
    var c0 := AddSchema(c, SchemaName(themes[0]));
    c1 := SeedTables(c0, c.nextSchemaId, themes[0].tableThemes);
    SeedTablesRows(c0, c.nextSchemaId, themes[0].tableThemes);
  }

  /** On success, one schema row per theme, keyed consecutively, in dictionary order. */
  lemma {:induction false} PopulateSchemas(c: Catalog, themes: seq<Theme>, r: Catalog)
    requires Populate(c, themes) == Some(r)
    ensures r.schemas == c.schemas + SchemaRows(c.nextSchemaId, themes)
    ensures r.nextSchemaId == c.nextSchemaId + |themes|
    decreases |themes|
  {
    if themes == [] {
      assert c.schemas + [] == c.schemas;
    } else {
      var c1 := PopulateStepSchemas(c, themes);
      PopulateSchemas(c1, themes[1..], r);
      AppendAssoc(c.schemas, [SchemaRow(c.nextSchemaId, SchemaName(themes[0]))], SchemaRows(c.nextSchemaId + 1, themes[1..]));
    }
  }

  /** On success, each theme's table rows sit under that theme's schema key. */
  lemma {:induction false} PopulateTables(c: Catalog, themes: seq<Theme>, r: Catalog)
    requires Populate(c, themes) == Some(r)
    ensures r.tables == c.tables + ThemesTableRows(c.nextSchemaId, c.nextTableId, themes)
    ensures r.nextTableId == c.nextTableId + ThemesTableCount(themes)
    decreases |themes|
  {
    if themes == [] {
      assert c.tables + [] == c.tables;
    } else {
      var ts := themes[0].tableThemes;
      var c1 := PopulateStepTables(c, themes);
      PopulateTables(c1, themes[1..], r);
      AppendAssoc(c.tables, TableRows(c.nextTableId, c.nextSchemaId, ts),
                  ThemesTableRows(c.nextSchemaId + 1, c.nextTableId + |ts|, themes[1..]));
    }
  }

  /** On success, each table's column rows sit under that table's key. */
  lemma {:induction false} PopulateColumns(c: Catalog, themes: seq<Theme>, r: Catalog)
    requires Populate(c, themes) == Some(r)
    ensures r.columns == c.columns + ThemesColumnRows(c.nextTableId, c.nextColumnId, themes)
    ensures r.nextColumnId == c.nextColumnId + ThemesColumnCount(themes)
    decreases |themes|
  {
    if themes == [] {
      assert c.columns + [] == c.columns;
    } else {
      var ts := themes[0].tableThemes;
      var c1 := PopulateStepColumns(c, themes);
      PopulateColumns(c1, themes[1..], r);
      AppendAssoc(c.columns, TablesColumnRows(c.nextColumnId, c.nextTableId, ts),
                  ThemesColumnRows(c.nextTableId + |ts|, c.nextColumnId + ColumnCount(ts), themes[1..]));
    }
  }

  /** The closed-form column rows are as many as the column tuples. */
  lemma {:induction false} TablesColumnRowsLength(nextColumn: int, nextTable: int, ts: seq<TableTheme>)
    ensures |TablesColumnRows(nextColumn, nextTable, ts)| == ColumnCount(ts)
    decreases |ts|
  {
    if ts != [] {
      TablesColumnRowsLength(nextColumn + |ts[0].columns|, nextTable + 1, ts[1..]);
    }
  }

  /** The closed-form rows are as many as the table themes and column tuples. */
  lemma {:induction false} ThemesRowsLength(nextSchema: int, nextTable: int, nextColumn: int, themes: seq<Theme>)
    ensures |ThemesTableRows(nextSchema, nextTable, themes)| == ThemesTableCount(themes)
    ensures |ThemesColumnRows(nextTable, nextColumn, themes)| == ThemesColumnCount(themes)
    decreases |themes|
  {
    if themes != [] {
      TablesColumnRowsLength(nextColumn, nextTable, themes[0].tableThemes);
      ThemesRowsLength(nextSchema + 1, nextTable + |themes[0].tableThemes|,
                       nextColumn + ColumnCount(themes[0].tableThemes), themes[1..]);
    }
  }

  /** Every row the seed writes is a primary key exactly when it is not nullable. */
  predicate NullableUnlessKey(rows: seq<ColumnRow>) {
    forall i :: 0 <= i < |rows| ==> rows[i].nulo == !rows[i].pk
  }

  /** Every table row the seed writes is a 'TABLE' whose physical name starts with TBL_. */
  predicate PhysicalTables(rows: seq<TableRow>) {
    forall i :: 0 <= i < |rows| ==> rows[i].tipoObjeto == "TABLE" && StartsWith(rows[i].nomeFisico, "TBL_")
  }

  lemma NullableAppend(a: seq<ColumnRow>, b: seq<ColumnRow>)
    requires NullableUnlessKey(a) && NullableUnlessKey(b)
    ensures NullableUnlessKey(a + b)
  {
    assert forall i :: |a| <= i < |a + b| ==> (a + b)[i] == b[i - |a|];
  }

  lemma PhysicalAppend(a: seq<TableRow>, b: seq<TableRow>)
    requires PhysicalTables(a) && PhysicalTables(b)
    ensures PhysicalTables(a + b)
  {
    assert forall i :: |a| <= i < |a + b| ==> (a + b)[i] == b[i - |a|];
  }

  /** Every physical table name starts with TBL_. */
  lemma PhysicalNamePrefix(t: TableTheme)
    ensures StartsWith(PhysicalName(t), "TBL_")
  {
    var tbl := "TBL_";
    assert PhysicalName(t)[..|tbl|] == tbl;
  }

  lemma {:induction false} ColumnRowsNullable(next: int, tabelaId: int, cols: seq<ColumnTheme>)
    ensures NullableUnlessKey(ColumnRows(next, tabelaId, cols))
    decreases |cols|
  {
    if cols != [] {
      ColumnRowsNullable(next + 1, tabelaId, cols[1..]);
      NullableAppend([ColumnRowFor(next, tabelaId, cols[0])], ColumnRows(next + 1, tabelaId, cols[1..]));
    }
  }

  lemma {:induction false} TableRowsPhysical(next: int, schemaId: int, ts: seq<TableTheme>)
    ensures PhysicalTables(TableRows(next, schemaId, ts))
    decreases |ts|
  {
    if ts != [] {
      TableRowsPhysical(next + 1, schemaId, ts[1..]);
      PhysicalNamePrefix(ts[0]);
      PhysicalAppend([TableRowFor(next, schemaId, ts[0])], TableRows(next + 1, schemaId, ts[1..]));
    }
  }

  lemma {:induction false} TablesColumnRowsNullable(nextColumn: int, nextTable: int, ts: seq<TableTheme>)
    ensures NullableUnlessKey(TablesColumnRows(nextColumn, nextTable, ts))
    decreases |ts|
  {
    if ts != [] {
      TablesColumnRowsNullable(nextColumn + |ts[0].columns|, nextTable + 1, ts[1..]);
      ColumnRowsNullable(nextColumn, nextTable, ts[0].columns);
      NullableAppend(ColumnRows(nextColumn, nextTable, ts[0].columns),
                     TablesColumnRows(nextColumn + |ts[0].columns|, nextTable + 1, ts[1..]));
    }
  }

  lemma {:induction false} ThemesColumnRowsNullable(nextTable: int, nextColumn: int, themes: seq<Theme>)
    ensures NullableUnlessKey(ThemesColumnRows(nextTable, nextColumn, themes))
    decreases |themes|
  {
    if themes != [] {
      var ts := themes[0].tableThemes;
      ThemesColumnRowsNullable(nextTable + |ts|, nextColumn + ColumnCount(ts), themes[1..]);
      TablesColumnRowsNullable(nextColumn, nextTable, ts);
      NullableAppend(TablesColumnRows(nextColumn, nextTable, ts),
                     ThemesColumnRows(nextTable + |ts|, nextColumn + ColumnCount(ts), themes[1..]));
    }
  }

  lemma {:induction false} ThemesTableRowsPhysical(nextSchema: int, nextTable: int, themes: seq<Theme>)
    ensures PhysicalTables(ThemesTableRows(nextSchema, nextTable, themes))
    decreases |themes|
  {
    if themes != [] {
      var ts := themes[0].tableThemes;
      ThemesTableRowsPhysical(nextSchema + 1, nextTable + |ts|, themes[1..]);
      TableRowsPhysical(nextTable, nextSchema, ts);
      PhysicalAppend(TableRows(nextTable, nextSchema, ts), ThemesTableRows(nextSchema + 1, nextTable + |ts|, themes[1..]));
    }
  }

  /**
   * A seed into freshly recreated tables: each column row is nullable
   * exactly when it is not a primary key, each table row is a 'TABLE' named
   * TBL_..., and the rows number one schema per theme, one table per table
   * theme and one column per column tuple.
   */
  lemma SeededRows(themes: seq<Theme>)
    requires Populate(Empty(), themes).Some?
    ensures var r := Populate(Empty(), themes).value;
      NullableUnlessKey(r.columns) && PhysicalTables(r.tables)
      && |r.schemas| == |themes| && |r.tables| == ThemesTableCount(themes) && |r.columns| == ThemesColumnCount(themes)
  {
    var r := Populate(Empty(), themes).value;
    PopulateSchemas(Empty(), themes, r);
    PopulateTables(Empty(), themes, r);
    PopulateColumns(Empty(), themes, r);
    ThemesColumnRowsNullable(1, 1, themes);
    ThemesTableRowsPhysical(1, 1, themes);
    ThemesRowsLength(1, 1, 1, themes);
  }

  // ---------------------------------------------------------------------------
  // The scripts' loops over the catalog store.
  // ---------------------------------------------------------------------------

  /** The column loop for the table just inserted. */
  method InsertColumns(store: CatalogStore, tabelaId: int, cols: seq<ColumnTheme>) returns (count: nat)
    requires store.Valid() && IsTableId(store.Snapshot(), tabelaId)
    modifies store
    ensures store.Valid()
    ensures store.Snapshot() == SeedColumns(old(store.Snapshot()), tabelaId, cols)
    ensures count == |cols|
  {
    ghost var c0 := store.Snapshot();
    count := 0;
    var j := 0;
    while j < |cols|
      invariant 0 <= j <= |cols| && count == j
      invariant store.Valid() && IsTableId(store.Snapshot(), tabelaId)
      invariant SeedColumns(c0, tabelaId, cols) == SeedColumns(store.Snapshot(), tabelaId, cols[j..])
    {
      var col := cols[j];
      assert cols[j..][1..] == cols[j + 1..];
      ghost var before := store.Snapshot();
      var _ := store.InsertColumn(col.nome, col.tipo, !col.pk, col.pk, Some(col.negocio), Some(col.descricao), tabelaId);
      AddsExtend(before, "", col.nome, col.tipo, !col.pk, col.pk, Some(col.negocio), Some(col.descricao), tabelaId);
      IdsPersist(before, store.Snapshot(), tabelaId);
      count := count + 1;
      j := j + 1;
    }
  }

  /** The table loop of the schema just inserted; count is the number of column rows written. */
  method InsertTables(store: CatalogStore, schemaId: int, ts: seq<TableTheme>) returns (tables: nat, columns: nat)
    requires store.Valid() && IsSchemaId(store.Snapshot(), schemaId)
    modifies store
    ensures store.Valid()
    ensures store.Snapshot() == SeedTables(old(store.Snapshot()), schemaId, ts)
    ensures tables == |ts| && columns == ColumnCount(ts)
  {
    ghost var c0 := store.Snapshot();
    tables, columns := 0, 0;
    var m := 0;
    while m < |ts|
      invariant 0 <= m <= |ts| && tables == m
      invariant columns + ColumnCount(ts[m..]) == ColumnCount(ts)
      invariant store.Valid() && IsSchemaId(store.Snapshot(), schemaId)
      invariant SeedTables(c0, schemaId, ts) == SeedTables(store.Snapshot(), schemaId, ts[m..])
    {
      var t := ts[m];
      assert ts[m..][1..] == ts[m + 1..];
      ghost var before := store.Snapshot();
      var tabelaId := store.InsertTable(PhysicalName(t), "TABLE", Some(BusinessName(t)), Some(t.description), schemaId);
      ghost var mid := store.Snapshot();
      AddsExtend(before, "", PhysicalName(t), "TABLE", false, false, Some(BusinessName(t)), Some(t.description), schemaId);
      var added := InsertColumns(store, tabelaId, t.columns);
      SeedColumnsRows(mid, tabelaId, t.columns);
      IdsPersist(before, store.Snapshot(), schemaId);
      tables := tables + 1;
      columns := columns + added;
      m := m + 1;
    }
  }

  /**
   * populate_data. ok is false when a schema insert hits the UNIQUE
   * constraint, where the script raises; otherwise the store holds what
   * Populate says, and the running totals are the numbers of table themes and
   * column tuples.
   */
  method PopulateData(store: CatalogStore, themes: seq<Theme>) returns (ok: bool, totalTables: nat, totalColumns: nat)
    requires store.Valid()
    modifies store
    ensures store.Valid()
    ensures ok <==> Populate(old(store.Snapshot()), themes).Some?
    ensures ok ==> store.Snapshot() == Populate(old(store.Snapshot()), themes).value
    ensures ok ==> totalTables == ThemesTableCount(themes) && totalColumns == ThemesColumnCount(themes)
  {
    ghost var c0 := store.Snapshot();
    totalTables, totalColumns := 0, 0;
    var k := 0;
    while k < |themes|
      invariant 0 <= k <= |themes|
      invariant totalTables + ThemesTableCount(themes[k..]) == ThemesTableCount(themes)
      invariant totalColumns + ThemesColumnCount(themes[k..]) == ThemesColumnCount(themes)
      invariant store.Valid()
      invariant Populate(c0, themes) == Populate(store.Snapshot(), themes[k..])
    {
      var theme := themes[k];
      assert themes[k..][1..] == themes[k + 1..];
      ghost var before := store.Snapshot();
      var inserted := store.InsertSchema(SchemaName(theme));
      if inserted.None? {
        return false, totalTables, totalColumns;
      }
      var tables, columns := InsertTables(store, inserted.value, theme.tableThemes);
      totalTables := totalTables + tables;
      totalColumns := totalColumns + columns;
      k := k + 1;
    }
    ok := true;
  }

  /**
   * main: recreate_tables, then populate_data, on one connection. The
   * tables start empty whatever they held, so the outcome depends on the
   * themes alone.
   */
  method Seed(store: CatalogStore, themes: seq<Theme>) returns (ok: bool, totalTables: nat, totalColumns: nat)
    requires store.Valid()
    modifies store
    ensures store.Valid()
    ensures ok <==> Populate(Empty(), themes).Some?
    ensures ok ==> store.Snapshot() == Populate(Empty(), themes).value
    ensures ok ==> totalTables == ThemesTableCount(themes) && totalColumns == ThemesColumnCount(themes)
  {
    store.Recreate();
    ok, totalTables, totalColumns := PopulateData(store, themes);
  }
}
