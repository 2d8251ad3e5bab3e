/**
 * The compact schema text given to the SQL generator: for each of the two
 * tables, one "Tabela: ... / Colunas: ..." block listing its columns as the
 * catalog reports them, with the legal values of the two enum types spelled
 * out; and the process-wide cell that remembers the first text produced.
 */
module CompactSchema {
  import opened Wrappers
  import opened Text

  /** One row of the column catalog query: (column_name, data_type). */
  datatype CatalogRow = CatalogRow(columnName: string, dataType: string)

  /**
   * What the database answers during one generation: whether the connection
   * opens, the rows of the column query per table, and the values of an enum
   * type. None stands for a query that raises.
   */
  datatype Introspection = Introspection(
    connects: bool,
    columnsOf: string -> Option<seq<CatalogRow>>,
    enumValuesOf: string -> Option<seq<string>>)

  const Tables: seq<string> := ["clientes", "operacoes_logisticas"]
  const SchemaError := "Erro ao obter schema do banco de dados."

  /** The two column types whose values are listed. */
  predicate IsEnumType(dataType: string) {
    dataType == "tipo_operacao_logistica" || dataType == "status_operacao"
  }

  function Quoted(values: seq<string>): (r: seq<string>)
    ensures |r| == |values|
  {
    seq(|values|, i requires 0 <= i < |values| => "'" + values[i] + "'")
  }

  /** One column entry: "name (type)", or "name (type, valores possíveis: 'v1', ...)" for the enum types. */
  function ColumnEntry(row: CatalogRow, values: seq<string>): string {
    if IsEnumType(row.dataType) then
      row.columnName + " (" + row.dataType + ", valores possíveis: " + Join(Quoted(values), ", ") + ")"
    else
      row.columnName + " (" + row.dataType + ")"
  }

  /** The entry for one row, fetching the enum values when the type asks for them. */
  function EntryFor(db: Introspection, row: CatalogRow): Option<string> {
    if IsEnumType(row.dataType) then
      match db.enumValuesOf(row.dataType)
      case None => None
      case Some(values) => Some(ColumnEntry(row, values))
    else Some(ColumnEntry(row, []))
  }

  function ColumnEntries(db: Introspection, rows: seq<CatalogRow>): Option<seq<string>> {
    Collect(rows, row => EntryFor(db, row))
  }

  function TableBlock(table: string, entries: seq<string>): string {
    "Tabela: " + table + "\nColunas: " + Join(entries, ", ")
  }

  function BlockFor(db: Introspection, table: string): Option<string> {
    match db.columnsOf(table)
    case None => None
    case Some(rows) =>
      match ColumnEntries(db, rows)
      case None => None
      case Some(entries) => Some(TableBlock(table, entries))
  }

  function SchemaBlocks(db: Introspection, tables: seq<string>): Option<seq<string>> {
    Collect(tables, table => BlockFor(db, table))
  }

  /** The text one generation returns. */
  function CompactSchemaText(db: Introspection): string {
    if !db.connects then SchemaError
    else
      match SchemaBlocks(db, Tables)
      case None => SchemaError
      case Some(blocks) => Join(blocks, "\n\n")
  }

  /** _generate_compact_db_schema: the nested loop over tables and catalog rows. */
  method GenerateCompactSchema(db: Introspection) returns (text: string)
    ensures text == CompactSchemaText(db)
  {
    if !db.connects {
      return SchemaError;
    }
    var schemaParts: seq<string> := [];
    var i := 0;
    while i < |Tables|
      invariant 0 <= i <= |Tables|
      invariant SchemaBlocks(db, Tables[..i]) == Some(schemaParts)
    {
      var table := Tables[i];
      var fetched := db.columnsOf(table);
      if fetched.None? {
        CollectPointwise(Tables, t => BlockFor(db, t));
        assert BlockFor(db, Tables[i]).None?;
        return SchemaError;
      }
      var rows := fetched.value;
      var columns: seq<string> := [];
      var j := 0;
      while j < |rows|
        invariant 0 <= j <= |rows|
        invariant ColumnEntries(db, rows[..j]) == Some(columns)
      {
        var row := rows[j];
        var entry: string;
        if IsEnumType(row.dataType) {
          var values := db.enumValuesOf(row.dataType);
          if values.None? {
            CollectPointwise(rows, r => EntryFor(db, r));
            assert EntryFor(db, rows[j]).None?;
            CollectPointwise(Tables, t => BlockFor(db, t));
            assert BlockFor(db, Tables[i]).None?;
            return SchemaError;
          }
          entry := ColumnEntry(row, values.value);
        } else {
          entry := ColumnEntry(row, []);
        }
        CollectSnoc(rows, j, r => EntryFor(db, r), columns, entry);
        columns := columns + [entry];
        j := j + 1;
      }
      assert rows[..|rows|] == rows;
      CollectSnoc(Tables, i, t => BlockFor(db, t), schemaParts, TableBlock(table, columns));
      schemaParts := schemaParts + [TableBlock(table, columns)];
      i := i + 1;
    }
    assert Tables[..|Tables|] == Tables;
    text := Join(schemaParts, "\n\n");
  }

  /** The values listed for a row: those of its enum type, none otherwise. */
  function ValuesFor(db: Introspection, row: CatalogRow): seq<string>
    requires EntryFor(db, row).Some?
  {
    if IsEnumType(row.dataType) then db.enumValuesOf(row.dataType).value else []
  }

  /** An entry begins with the column's name and type and ends with ')'. */
  lemma EntryNamesColumn(row: CatalogRow, values: seq<string>)
    ensures StartsWith(ColumnEntry(row, values), row.columnName + " (" + row.dataType)
    ensures EndsWith(ColumnEntry(row, values), ")")
  {
    var head := row.columnName + " (" + row.dataType;
    var e := ColumnEntry(row, values);
    if IsEnumType(row.dataType) {
      var rest := ", valores possíveis: " + Join(Quoted(values), ", ") + ")";
      assert e == head + rest;
    } else {
      assert e == head + ")";
    }
    assert e[..|head|] == head;
  }

  /** An enum-typed entry lists every value, each in single quotes. */
  lemma EnumEntryListsValues(row: CatalogRow, values: seq<string>, k: nat)
    requires IsEnumType(row.dataType) && k < |values|
    ensures Contains(ColumnEntry(row, values), "'" + values[k] + "'")
  {
    var quoted := Quoted(values);
    JoinContainsPart(quoted, ", ", k);
    var front := row.columnName + " (" + row.dataType + ", valores possíveis: ";
    ContainsInSuffix(front, Join(quoted, ", "), quoted[k]);
    ContainsInPrefix(front + Join(quoted, ", "), ")", quoted[k]);
  }

  /** Within a block, the entries follow the catalog rows one for one and in order. */
  lemma EntriesFollowRows(db: Introspection, rows: seq<CatalogRow>)
    requires ColumnEntries(db, rows).Some?
    ensures var entries := ColumnEntries(db, rows).value;
      |entries| == |rows|
      && forall k :: 0 <= k < |rows| ==>
           EntryFor(db, rows[k]).Some? && entries[k] == ColumnEntry(rows[k], ValuesFor(db, rows[k]))
  {
    CollectPointwise(rows, row => EntryFor(db, row));
  }

  /** The entries fail exactly when the values of some enum-typed row cannot be fetched. */
  lemma EntriesFailIff(db: Introspection, rows: seq<CatalogRow>)
    ensures ColumnEntries(db, rows).None? <==>
      exists k :: 0 <= k < |rows| && IsEnumType(rows[k].dataType) && db.enumValuesOf(rows[k].dataType).None?
  {
    CollectPointwise(rows, row => EntryFor(db, row));
  }

  /** A successful generation is the clientes block, a blank line, then the operacoes_logisticas block. */
  lemma SchemaLayout(db: Introspection)
    requires CompactSchemaText(db) != SchemaError
    ensures db.connects && BlockFor(db, "clientes").Some? && BlockFor(db, "operacoes_logisticas").Some?
    ensures CompactSchemaText(db)
      == BlockFor(db, "clientes").value + "\n\n" + BlockFor(db, "operacoes_logisticas").value
  {
    CollectPointwise(Tables, t => BlockFor(db, t));
    var blocks := SchemaBlocks(db, Tables).value;
    assert Tables[0] == "clientes" && Tables[1] == "operacoes_logisticas";
    assert blocks[0] == BlockFor(db, "clientes").value;
    assert blocks[1] == BlockFor(db, "operacoes_logisticas").value;
    assert blocks[1..] == [blocks[1]];
    assert Join(blocks[1..], "\n\n") == blocks[1];
  }

  /** Each block is headed by its table name. */
  lemma BlockHeading(db: Introspection, table: string)
    requires BlockFor(db, table).Some?
    ensures StartsWith(BlockFor(db, table).value, "Tabela: " + table + "\nColunas: ")
  {
    var head := "Tabela: " + table + "\nColunas: ";
    var entries := ColumnEntries(db, db.columnsOf(table).value).value;
    assert BlockFor(db, table).value == head + Join(entries, ", ");
    assert (head + Join(entries, ", "))[..|head|] == head;
  }

  /** Generation yields the error text exactly when the connection or one of its queries fails. */
  lemma SchemaFailsIff(db: Introspection)
    ensures CompactSchemaText(db) == SchemaError <==>
      !db.connects || BlockFor(db, "clientes").None? || BlockFor(db, "operacoes_logisticas").None?
  {
    CollectPointwise(Tables, t => BlockFor(db, t));
    if db.connects && BlockFor(db, "clientes").Some? && BlockFor(db, "operacoes_logisticas").Some? {
      var blocks := SchemaBlocks(db, Tables).value;
      assert blocks[0] == BlockFor(db, "clientes").value;
      BlockHeading(db, "clientes");
      var text := CompactSchemaText(db);
      assert text == blocks[0] + "\n\n" + Join(blocks[1..], "\n\n");
      assert text[0] == blocks[0][0] == 'T';
      assert SchemaError[0] == 'E';
    }
  }

  /**
   * The process-wide cell _cached_schema. The ghost counter records how many
   * generations have run.
   */
  class SchemaCache {
    var cached: Option<string>
    ghost var generations: nat

    ghost predicate Valid()
      reads this
    {
      generations == if cached.Some? then 1 else 0
    }

    constructor ()
      ensures Valid() && cached == None && generations == 0
    {
      cached := None;
      generations := 0;
    }

    /** get_compact_db_schema: generate on the first call, then always answer from the cell. */
    method Get(db: Introspection) returns (schema: string)
      requires Valid()
      modifies this
      ensures Valid() && generations <= 1
      ensures cached == Some(schema)
      ensures old(cached).Some? ==> schema == old(cached).value && generations == old(generations)
      ensures old(cached).None? ==> schema == CompactSchemaText(db) && generations == 1
    {
      if cached.None? {
        var text := GenerateCompactSchema(db);
        cached := Some(text);
        generations := generations + 1;
      }
      schema := cached.value;
    }
  }

  /**
   * A failed first generation is kept: a later call answers the error text
   * even when the database has come back.
   */
  method FailureIsPermanent(cache: SchemaCache, down: Introspection, up: Introspection)
    returns (first: string, second: string)
    requires cache.Valid() && cache.cached == None && !down.connects
    modifies cache
    ensures first == SchemaError && second == SchemaError && cache.generations == 1
  {
    first := cache.Get(down);
    second := cache.Get(up);
  }

  /** Every call after the first answers the first call's text, whatever the database says. */
  method LaterCallsRepeatFirst(cache: SchemaCache, db1: Introspection, db2: Introspection)
    returns (first: string, second: string)
    requires cache.Valid()
    modifies cache
    ensures second == first && cache.generations <= 1
  {
    first := cache.Get(db1);
    second := cache.Get(db2);
  }
}
