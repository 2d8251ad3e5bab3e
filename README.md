# DataChat-BI core, modelled in Dafny

DataChat-BI answers questions about a logistics database in Portuguese.

- **Answering questions.** A router model labels each question. Database questions go to a chain that asks a model for SQL, runs it and turns the result into a JSON reply. That reply is either text or a chart.
- **Data catalog.** It lives in three tables: schemas, tables, columns. Scripts fill it from a theme dictionary or synchronise it from a JSON structure file.
- **Test data.** A generator fills the `clientes` and `operacoes_logisticas` tables and bulk-loads the operations through a tab-separated COPY stream.
- **Charts.** The web front end draws each chart reply as a bar, line or pie chart.

This project models the deterministic core of those parts and proves its properties. There is one Dafny module per source file, plus two shared modules:

| file | module | models |
|---|---|---|
| `sql_chain.dfy` | `SqlRagChain` | `backend/app/chains/sql_rag_chain.py`: the LIMIT rewrite, the error string, the master routing, the simple-chat and fallback replies |
| `compact_schema.dfy` | `CompactSchema` | `backend/app/core/database.py`: the compact schema text (an imperative loop proved against a formatting function) and its one-shot process cache (a class with a ghost generation counter) |
| `chatbot_service.dfy` | `ChatbotService` | `backend/app/api/services/chatbot_service.py`: `format_docs`, the two-way classifier branch, the session-history dictionary and the catch-all in `get_response` |
| `catalog_db.dfy` | `CatalogDb` | The catalog tables (`app/models.py`, and the DDL in both `populate_db.py` scripts). It is a class over three row sequences with auto-increment counters, a UNIQUE schema name and foreign keys. |
| `catalog_sync.dfy` | `CatalogSync` | `scripts/populate_catalogo.py`: the nested find-or-create synchronisation. The run is also written as a function, `Synced`, built from the `Add*` steps. Each method's new state is that function's value on the old state, and lemmas about the function state what a run covers and appends. |
| `catalog_seed.dfy` | `CatalogSeed` | The shared `recreate_tables`/`populate_data` of both `populate_db.py` scripts: the naming rules, id threading and counters. These are methods proved against closed-form row functions. |
| `seed_backend.dfy`, `seed_scripts.dfy` | `BackendSeed`, `ScriptsSeed` | The two theme dictionaries and what seeding them produces |
| `test_data.dfy` | `TestData` | `db_scripts/popular_tabelas.py`: client and operation construction, operation codes and the COPY line encoder |
| `chart_component.dfy` | `ChartComponent` | `frontend/src/components/ChartComponent.js`: axis-key defaults, the row mapping, the chart-kind switch and pie colours |
| `chat_reply.dfy` | `ChatReply` | The JSON reply shapes of `backend/app/prompts/sql_prompts.py:151-168` |
| `text.dfy`, `wrappers.dfy` | `Text`, `Wrappers` | Python string built-ins (`strip`, `lower`, `upper`, `in`, `join`, `replace`, `f"{n:06d}"`) and `Option` |

Calls the model cannot see are parameters:

- **Language-model, prompt, parser, retriever and database calls.** Each is a function returning `Option`; `None` means the call raised.
- **Random draws.** Each is a record of indices and numbers, already in the range `random.choice`/`randint` guarantees.
- **Dates.** A date is a day number; its rendering is a function. A datetime is a day number and the text of its time of day.

Where the prompt and the code disagree, the model follows the code:

- **LIMIT rewrite.** The prompt at `backend/app/prompts/sql_prompts.py:62` asks the language model to leave out `LIMIT` for whole-table aggregates. That is an instruction to the model, not an exemption in the code: `_prepare_query` (`backend/app/chains/sql_rag_chain.py:43-52`) appends ` LIMIT 100;` to every SELECT without `limit`, so `SELECT count(*) ... ;` is rewritten too (`SqlRagChain.ExampleAggregateLimited`).

## Model

| member | source | states |
|---|---|---|
| SqlRagChain.IsUnlimitedSelect | backend/app/chains/sql_rag_chain.py:43-48 | The rewrite condition: the lower-cased, stripped query starts with `select`, and the lower-cased query has no `limit` anywhere |
| SqlRagChain.WithLimit | backend/app/chains/sql_rag_chain.py:49-52 | The stripped query less one trailing `;`, followed by ` LIMIT 100;` |
| SqlRagChain.PrepareQuery | backend/app/chains/sql_rag_chain.py:43-52 | A SELECT without `limit` ends with ` LIMIT 100;`; any other query is returned unchanged |
| SqlRagChain.PrepareQueryChangesIff | backend/app/chains/sql_rag_chain.py:48 | The query is rewritten exactly when, lowercased and stripped, it starts with `select` and `limit` occurs nowhere in it |
| SqlRagChain.InjectedShape | backend/app/chains/sql_rag_chain.py:49-52 | The rewrite is the stripped query with one trailing `;` removed, followed by ` LIMIT 100;` |
| SqlRagChain.RewriteWhen | backend/app/chains/sql_rag_chain.py:49-52 | For a query without surrounding whitespace, the rewrite drops its final `;` if any and appends ` LIMIT 100;` |
| SqlRagChain.PreparedSelectIsLimited | backend/app/chains/sql_rag_chain.py:48-52 | After preparation, every SELECT contains `limit` |
| SqlRagChain.PrepareQueryIdempotent | backend/app/chains/sql_rag_chain.py:48-52 | Preparing a prepared query changes nothing |
| SqlRagChain.NotSelectWhen | backend/app/chains/sql_rag_chain.py:48 | A query whose first character is neither whitespace nor `s`/`S` is left untouched |
| SqlRagChain.ExampleDoubleSemicolon | backend/app/chains/sql_rag_chain.py:49-50 | `SELECT 1;;` becomes `SELECT 1; LIMIT 100;`: only one `;` is removed |
| SqlRagChain.ExampleLimitInIdentifier | backend/app/chains/sql_rag_chain.py:48 | `SELECT limite FROM t` is not rewritten: `limit` inside an identifier counts |
| SqlRagChain.ExampleUpdateUntouched | backend/app/chains/sql_rag_chain.py:48 | An UPDATE statement passes through unchanged |
| SqlRagChain.ExampleAggregateLimited | backend/app/prompts/sql_prompts.py:23 | The few-shot count query of cancelled operations gets ` LIMIT 100;` in place of its `;` |
| SqlRagChain.ExampleOwnLimitKept | backend/app/prompts/sql_prompts.py:35 | The few-shot top-5 freight query already has a LIMIT and is kept verbatim |
| SqlRagChain.ErrorText | backend/app/chains/sql_rag_chain.py:62 | The error string starts with `Erro: A query falhou. Causa: ` and ends with `. Tente reformular a pergunta.`, with the cause in between |
| SqlRagChain.ErrorCauseRoundTrip | backend/app/chains/sql_rag_chain.py:62 | The cause can be read back out of the error string unchanged |
| SqlRagChain.ExecuteSqlQuery | backend/app/chains/sql_rag_chain.py:41-62 | The database runs the prepared query; a result is returned verbatim and an exception becomes the error string |
| SqlRagChain.ExecuteErrorNamesCause | backend/app/chains/sql_rag_chain.py:60-62 | When the database raises, the returned string carries exactly the exception's text as its cause |
| SqlRagChain.RouteTopic | backend/app/chains/sql_rag_chain.py:134-141 | Database label present: SQL chain; else chat label present: simple chat; else fallback. The three cases are exhaustive and exclusive |
| SqlRagChain.ExampleBothLabels | backend/app/chains/sql_rag_chain.py:136-138 | A topic naming both labels goes to the SQL chain, because the first test wins |
| SqlRagChain.ExampleUpperCaseLabel | backend/app/chains/sql_rag_chain.py:136-140 | The tests are case-sensitive: an upper-case database label falls through to the fallback |
| SqlRagChain.SimpleChat | backend/app/chains/sql_rag_chain.py:118-124 | Simple chat replies `{"type": "text", "content": <model text>}`, and fails only when the model call fails |
| SqlRagChain.SqlChain | backend/app/chains/sql_rag_chain.py:68-98 | The SQL chain executes exactly the prepared generated query, once, and answers from the execution output and the original question |
| SqlRagChain.MasterChain | backend/app/chains/sql_rag_chain.py:144-150 | A failing router yields no reply; a query is executed only on the SQL branch |
| SqlRagChain.FallbackIsFixed | backend/app/chains/sql_rag_chain.py:130 | The fallback always yields the same text reply and executes nothing |
| SqlRagChain.SimpleChatReply | backend/app/chains/sql_rag_chain.py:118-124 | On the chat branch nothing is executed and the reply's content is the model's text |
| SqlRagChain.ExecutedSelectsAreLimited | backend/app/chains/sql_rag_chain.py:48-58 | Every SELECT the whole chain sends to the database contains `limit` |
| SqlRagChain.SqlBranchAnswersFromResult | backend/app/chains/sql_rag_chain.py:84-98 | On the SQL branch the answer prompt receives the executor's output (possibly the error string) and the question |
| ChatReply.TextReply | backend/app/prompts/sql_prompts.py:164-169 | A text reply is an object with exactly the keys `type` and `content` |
| ChatReply.TextReplyContent | backend/app/prompts/sql_prompts.py:164-169 | Reading the content of a text reply gives back the string it was built from |
| ChatReply.TextReplyInjective | backend/app/prompts/sql_prompts.py:164-169 | Different contents give different text replies |
| CompactSchema.ColumnEntry | backend/app/core/database.py:74-81 | `name (type)`, or for the two enum types `name (type, valores possíveis: 'v1', ...)` with the values quoted and comma-separated |
| CompactSchema.CompactSchemaText | backend/app/core/database.py:46-90 | The text one generation returns: the two table blocks joined by a blank line, or the fixed error text when the connection or any query fails |
| CompactSchema.GenerateCompactSchema | backend/app/core/database.py:46-90 | The nested loop produces exactly the compact schema text of the introspected database, or the fixed error string |
| CompactSchema.EntryNamesColumn | backend/app/core/database.py:79-81 | A column entry starts with `name (type` and ends with `)` |
| CompactSchema.EnumEntryListsValues | backend/app/core/database.py:76-79 | An enum-typed column's entry lists every one of its values in single quotes |
| CompactSchema.EntriesFollowRows | backend/app/core/database.py:73-81 | One entry per catalog row, in the row order the query returned |
| CompactSchema.EntriesFailIff | backend/app/core/database.py:76-78 | Formatting fails exactly when an enum-typed column's value query fails |
| CompactSchema.SchemaLayout | backend/app/core/database.py:65-87 | A successful text is the `clientes` block, a blank line, then the `operacoes_logisticas` block |
| CompactSchema.BlockHeading | backend/app/core/database.py:83 | Each block starts with `Tabela: <table>` and a `Colunas:` line |
| CompactSchema.SchemaFailsIff | backend/app/core/database.py:53-90 | The error string is returned exactly when the connection or one of the table blocks fails |
| CompactSchema.SchemaCache.Get | backend/app/core/database.py:95-106 | The first call generates once and caches the result; later calls return the cached string and generate nothing |
| CompactSchema.FailureIsPermanent | backend/app/core/database.py:88-103 | A failed first generation is cached: a second call returns the error string even when the database has recovered |
| CompactSchema.LaterCallsRepeatFirst | backend/app/core/database.py:100-106 | Two calls return the identical string, with at most one generation |
| ChatbotService.Contents | backend/app/api/services/chatbot_service.py:138 | The page contents of the documents, one per document, in order |
| ChatbotService.FormatDocs | backend/app/api/services/chatbot_service.py:137-138 | No documents give the empty string; one document gives its content |
| ChatbotService.FormatDocsKeepsEach | backend/app/api/services/chatbot_service.py:137-138 | Every document's content occurs in the formatted context |
| ChatbotService.FormatDocsAppend | backend/app/api/services/chatbot_service.py:137-138 | Formatting two lists joins their texts with one blank line |
| ChatbotService.FormatDocsLength | backend/app/api/services/chatbot_service.py:137-138 | The length is the sum of the contents plus two per separator |
| ChatbotService.SelectRoute | backend/app/api/services/chatbot_service.py:168-173 | Conversational chain iff `conversacional` occurs in the lowercased topic; every other label goes to the retrieval chain |
| ChatbotService.ExampleUpperCaseConversational | backend/app/api/services/chatbot_service.py:170 | The test ignores case: `CONVERSACIONAL` selects the conversational chain |
| ChatbotService.ExampleEmptyLabel | backend/app/api/services/chatbot_service.py:172 | An empty label goes to the retrieval chain; there is no fallback |
| ChatbotService.BranchChain | backend/app/api/services/chatbot_service.py:141-173 | A failing classifier fails the chain; a conversational label answers from the conversational model |
| ChatbotService.RetrievalUsesContext | backend/app/api/services/chatbot_service.py:152-162 | The retrieval branch answers with the formatted retrieved documents as context |
| ChatbotService.ChatbotService.GetSessionHistory | backend/app/api/services/chatbot_service.py:177-183 | An unknown id gets a fresh empty history, stored under it; a known id returns the stored one, and nothing else changes |
| ChatbotService.ChatbotService.GetResponse | backend/app/api/services/chatbot_service.py:194-208 | The id becomes a key and no other entry changes; for a new id the chain reads a fresh, empty history; the reply is the chain's answer, or the fixed apology when the chain raises |
| ChatbotService.SameSessionSameHistory | backend/app/api/services/chatbot_service.py:178-183 | Two lookups of one id return the same history object, and other sessions are untouched |
| CatalogDb.Empty | backend/scripts/populate_db.py:135-143 | Freshly created tables are empty, keyed and referentially intact |
| CatalogDb.KeyedIncreasing | app/models.py:26 | Auto-increment keys strictly increase in insertion order |
| CatalogDb.AddSchemaValid | backend/scripts/populate_db.py:136 | Inserting a schema under a new name keeps keys, unique names and foreign keys intact |
| CatalogDb.AddTableValid | backend/scripts/populate_db.py:139 | Inserting a table under an existing schema id keeps the catalog intact |
| CatalogDb.AddColumnValid | backend/scripts/populate_db.py:142 | Inserting a column under an existing table id keeps the catalog intact |
| CatalogDb.AddsExtend | scripts/populate_catalogo.py:51-92 | An insert only appends: no existing row changes or disappears |
| CatalogDb.IdsPersist | scripts/populate_catalogo.py:44-92 | An id present before a run of inserts is still present after it |
| CatalogDb.CatalogStore.Recreate | backend/scripts/populate_db.py:127-144 | Dropping and recreating leaves the three tables existing, empty, with counters back at 1 |
| CatalogDb.CatalogStore.InsertSchema | app/models.py:27 | An insert under a new name appends the row with the next id; a duplicate name is refused and changes nothing |
| CatalogDb.CatalogStore.InsertTable | backend/scripts/populate_db.py:168-172 | The row is appended with the next id, which `lastrowid` returns |
| CatalogDb.CatalogStore.InsertColumn | backend/scripts/populate_db.py:180-183 | The row is appended with the next id |
| CatalogSync.SchemaIdOf | scripts/populate_catalogo.py:44 | `.first()` of the query by schema name: the id of the first row with that name, or None when there is none |
| CatalogSync.TableIdOf | scripts/populate_catalogo.py:64 | `.first()` of the query by physical name and schema id: the id of the first matching table row, or None |
| CatalogSync.ColumnIdOf | scripts/populate_catalogo.py:80 | `.first()` of the query by physical name and table id: the id of the first matching column row, or None |
| CatalogSync.LookupsFindRows | scripts/populate_catalogo.py:44-80 | Each lookup finds a row with that name (and parent id) exactly when one exists, and returns its id |
| CatalogSync.LookupsPersist | scripts/populate_catalogo.py:44-92 | A row found before later inserts is still the one found after them |
| CatalogSync.SchemaInsertFound | scripts/populate_catalogo.py:47-55 | After creating a missing schema, looking it up finds the new id |
| CatalogSync.TableInsertFound | scripts/populate_catalogo.py:67-75 | After creating a missing table, looking it up by name and schema finds the new id |
| CatalogSync.ColumnInsertFound | scripts/populate_catalogo.py:83-92 | After creating a missing column, looking it up by name and table finds the new id |
| CatalogSync.NoGrowthUnchanged | scripts/populate_catalogo.py:44-92 | An append-only run that adds nothing leaves the catalog identical |
| CatalogSync.CoveredRowsExist | scripts/populate_catalogo.py:44-92 | A covered input has, for each of its columns, a schema row, a table row under that schema id and a column row under that table id |
| CatalogSync.ColumnSynced | scripts/populate_catalogo.py:80-92 | One column step, as a function of the catalog: it only appends |
| CatalogSync.ColumnsSynced | scripts/populate_catalogo.py:78-92 | The column loop as a function, column by column in input order: it only appends |
| CatalogSync.TableEnsured | scripts/populate_catalogo.py:64-76 | The table find-or-create step as a function: it only appends |
| CatalogSync.TableSynced | scripts/populate_catalogo.py:58-92 | One table, then its columns under the key found or created: it only appends |
| CatalogSync.TablesSynced | scripts/populate_catalogo.py:58-92 | The table loop as a function: it only appends |
| CatalogSync.SchemaEnsured | scripts/populate_catalogo.py:44-56 | The schema find-or-create step as a function: it only appends |
| CatalogSync.SchemaSynced | scripts/populate_catalogo.py:38-92 | One schema, then its tables under the key found or created: it only appends |
| CatalogSync.Synced | scripts/populate_catalogo.py:38-92 | The whole run as a function, schema by schema in input order: it only appends |
| CatalogSync.ColumnsSyncedCovers | scripts/populate_catalogo.py:78-92 | After the column loop every input column has a row in its table |
| CatalogSync.ColumnsSyncedNoGrowth | scripts/populate_catalogo.py:78-92 | If every input column already had its row, the column loop leaves the catalog identical |
| CatalogSync.TableSyncedCovers | scripts/populate_catalogo.py:58-92 | After one table, the table has its row in the schema and each of its columns a row under that table |
| CatalogSync.TableSyncedNoGrowth | scripts/populate_catalogo.py:58-92 | A table already covered with all its columns leaves the catalog identical |
| CatalogSync.TablesSyncedCovers | scripts/populate_catalogo.py:58-92 | After the table loop every input table and each of its columns has its row |
| CatalogSync.TablesSyncedNoGrowth | scripts/populate_catalogo.py:58-92 | If every input table was already covered, the table loop leaves the catalog identical |
| CatalogSync.SchemaSyncedCovers | scripts/populate_catalogo.py:38-92 | After one schema, the schema, its tables and their columns have their rows |
| CatalogSync.SchemaSyncedNoGrowth | scripts/populate_catalogo.py:38-92 | A schema already covered leaves the catalog identical |
| CatalogSync.SyncedCovers | scripts/populate_catalogo.py:38-92 | After a run the whole input structure is covered |
| CatalogSync.SyncedNoGrowth | scripts/populate_catalogo.py:38-92 | A run over a covered structure leaves the catalog identical, so running twice equals running once |
| CatalogSync.ColumnsSyncedAdds | scripts/populate_catalogo.py:78-92 | Every column row the loop appends is an input column with exactly its name, type, nullability and key flag, under the given table id; it is the row the lookup by (name, table) finds; no schema or table row is added |
| CatalogSync.TableSyncedAdds | scripts/populate_catalogo.py:58-92 | One table appends at most its own row (with its `tipo_objeto`, found by the lookup) and column rows of its own columns under its key |
| CatalogSync.TablesSyncedAdds | scripts/populate_catalogo.py:58-92 | Every table row the loop appends is an input table of that schema, and every column row one of that table's input columns |
| CatalogSync.SchemaSyncedAdds | scripts/populate_catalogo.py:38-92 | One schema appends at most its own row, found by name, then rows for its own tables and columns |
| CatalogSync.SyncedAddsInputRows | scripts/populate_catalogo.py:38-92 | Every appended schema, table and column row is an entry of the input with exactly its fields, under the parent id the lookup finds, and is the row its own lookup finds |
| CatalogSync.EnsureColumn | scripts/populate_catalogo.py:80-92 | An existing column is kept as it is; a missing one is created with the input's type, nullability and key flag; the new state is `ColumnSynced` of the old |
| CatalogSync.SyncColumns | scripts/populate_catalogo.py:78-92 | Every input column of the table ends up in the catalog; if all were present nothing grows; the new state is `ColumnsSynced` of the old, whose appended rows `ColumnsSyncedAdds` describes |
| CatalogSync.EnsureTable | scripts/populate_catalogo.py:64-76 | The table is found by name and schema id or created with its `tipo_objeto`; its id is returned; state and id are `TableEnsured`/`TableKeyFor` of the old state |
| CatalogSync.SyncTable | scripts/populate_catalogo.py:58-92 | The table and all its columns end up covered; nothing grows when they already were; the new state is `TableSynced` of the old |
| CatalogSync.EnsureSchema | scripts/populate_catalogo.py:44-56 | The schema is found by name or created; its id is returned; state and id are `SchemaEnsured`/`SchemaKeyFor` of the old state |
| CatalogSync.SyncTables | scripts/populate_catalogo.py:58-92 | All tables of a schema end up covered; existing rows are never modified; the new state is `TablesSynced` of the old, whose appended rows `TablesSyncedAdds` describes |
| CatalogSync.SyncSchema | scripts/populate_catalogo.py:38-92 | The schema, its tables and their columns end up covered; the new state is `SchemaSynced` of the old, whose appended rows `SchemaSyncedAdds` describes |
| CatalogSync.SyncSchemas | scripts/populate_catalogo.py:38-92 | The schema loop: the whole structure ends up covered; nothing grows when it already was; the new state is `Synced` of the old, whose appended rows `SyncedAddsInputRows` describes |
| CatalogSync.Synchronize | scripts/populate_catalogo.py:25-100 | A missing file changes nothing; otherwise the whole structure ends up covered, only by appending; a second run with the same input changes nothing; the new state is `Synced` of the old and every appended row comes from the input with its own fields |
| CatalogSeed.SeedColumns | backend/scripts/populate_db.py:176-184 | The column loop, one insert at a time: each tuple becomes a column row with `nulo = not pk`, its business name and description, under the table id |
| CatalogSeed.SeedTables | backend/scripts/populate_db.py:159-184 | The table loop: each table row (`TBL_<type>_<NAME>`, `TABLE`, business name, description), then its columns under the key just allocated |
| CatalogSeed.Populate | backend/scripts/populate_db.py:153-184 | populate_data: each theme's schema row, then its tables under that key; None when a schema name is already taken and the UNIQUE insert raises |
| CatalogSeed.SchemaNameInitial | backend/scripts/populate_db.py:154 | The schema name is the two-letter prefix, `_`, then the area upper-cased |
| CatalogSeed.PhysicalNamePrefix | backend/scripts/populate_db.py:163 | Every physical table name starts with `TBL_` |
| CatalogSeed.SeedColumnsRows | backend/scripts/populate_db.py:176-184 | Seeding a table's columns appends one row per column tuple, with consecutive ids and the table's id |
| CatalogSeed.SeedTablesRows | backend/scripts/populate_db.py:159-184 | Seeding a schema's tables appends one table row per theme and all their column rows; the counters advance by those numbers |
| CatalogSeed.PopulateSucceeds | backend/scripts/populate_db.py:153-155 | Seeding succeeds exactly when the schema names are pairwise distinct and not yet present, as the UNIQUE column demands |
| CatalogSeed.PopulateSchemas | backend/scripts/populate_db.py:153-156 | One schema row per theme, in dictionary order, named by the rule |
| CatalogSeed.PopulateTables | backend/scripts/populate_db.py:159-173 | Table rows appear in order, each with the id just allocated to its schema |
| CatalogSeed.PopulateColumns | backend/scripts/populate_db.py:176-184 | Column rows appear in order, each with the id just allocated to its table |
| CatalogSeed.ColumnRowsAt | backend/scripts/populate_db.py:177-183 | Column i of a table gets id next+i, its tuple's fields and `nulo = not pk` |
| CatalogSeed.TableRowsAt | backend/scripts/populate_db.py:160-171 | Table i gets id next+i, name `TBL_<type>_<NAME>`, type `TABLE`, business name and description |
| CatalogSeed.SchemaRowsAt | backend/scripts/populate_db.py:154-156 | Schema i gets id next+i and its derived name |
| CatalogSeed.ThemesCountAppend | backend/scripts/populate_db.py:173-184 | The table and column counts of two theme lists add up |
| CatalogSeed.ThemesRowsLength | backend/scripts/populate_db.py:173-184 | The number of table and column rows produced equals the counted totals |
| CatalogSeed.SeededRows | backend/scripts/populate_db.py:153-184 | A seeded catalog has `nulo == not pk` on every column, `TABLE`/`TBL_` on every table, and one row per theme, table theme and column tuple |
| CatalogSeed.InsertColumns | backend/scripts/populate_db.py:176-184 | The column loop inserts exactly the seeded column rows and counts them |
| CatalogSeed.InsertTables | backend/scripts/populate_db.py:159-184 | The table loop inserts exactly the seeded rows; the counters equal the number of table themes and column tuples |
| CatalogSeed.PopulateData | backend/scripts/populate_db.py:146-184 | The populate loop succeeds iff seeding can; the store then holds the seeded catalog and the totals are the theme counts |
| CatalogSeed.Seed | backend/scripts/populate_db.py:193-204 | Recreating then populating gives the seeded catalog of the empty one |
| BackendSeed.SchemaNamesDistinct | backend/scripts/populate_db.py:13-125 | The three areas give three distinct schema names |
| BackendSeed.Totals | backend/scripts/populate_db.py:13-125 | The dictionary holds 3 schemas, 8 table themes and 48 column tuples |
| BackendSeed.SeedSucceeds | backend/scripts/populate_db.py:146-191 | Seeding the dictionary succeeds with 3 schema, 8 table and 48 column rows, all following the naming and nullability rules |
| BackendSeed.RunSeed | backend/scripts/populate_db.py:193-204 | A run leaves the seeded catalog and reports 8 tables and 48 columns |
| BackendSeed.VendasTextsFit | backend/scripts/populate_db.py:14-80 | The Vendas descriptions give each table theme its own text and one per column |
| BackendSeed.RecursosHumanosTextsFit | backend/scripts/populate_db.py:81-97 | The Recursos Humanos descriptions give the table theme its own text and one per column |
| BackendSeed.FinancasTextsFit | backend/scripts/populate_db.py:98-124 | The Finanças descriptions give each table theme its own text and one per column |
| BackendSeed.DictionaryTextsFit | backend/scripts/populate_db.py:14-124 | The whole dictionary's descriptions have the shape the seed lemmas and `RunSeed` require |
| ScriptsSeed.SchemaNamesDistinct | scripts/populate_db.py:14-89 | The two areas give two distinct schema names |
| ScriptsSeed.Totals | scripts/populate_db.py:14-89 | The dictionary holds 2 schemas, 5 table themes and 34 column tuples |
| ScriptsSeed.SeedSucceeds | scripts/populate_db.py:110-159 | Seeding succeeds with 2 schema, 5 table and 34 column rows following the same rules |
| ScriptsSeed.RunSeed | scripts/populate_db.py:162-171 | A run leaves the seeded catalog and reports 5 tables and 34 columns |
| ScriptsSeed.VendasTextsFit | scripts/populate_db.py:15-57 | The Vendas descriptions give each table theme its own text and one per column |
| ScriptsSeed.RecursosHumanosTextsFit | scripts/populate_db.py:58-88 | The Recursos Humanos descriptions give each table theme its own text and one per column |
| ScriptsSeed.DictionaryTextsFit | scripts/populate_db.py:15-88 | The whole dictionary's descriptions have the shape the seed lemmas and `RunSeed` require |
| TestData.MakeClient | db_scripts/popular_tabelas.py:76-86 | The client tuple from one draw: name, document and phone as drawn; a company's e-mail is `contato@<mailbox>.com`, a person's the lower-cased name with dots for spaces at the drawn domain |
| TestData.ShowDateTime | db_scripts/popular_tabelas.py:107-136 | `str()` of a datetime: the date's text, a space, then the time of day |
| TestData.Unescape | db_scripts/popular_tabelas.py:147 | COPY's text-format decoding of one field: `\b \f \n \r \t \v`, octal and `\x` escapes, and any other escaped character as itself |
| TestData.ReadCell | db_scripts/popular_tabelas.py:147 | How `copy_from` reads one field back: exactly `\N` is NULL, anything else is decoded |
| TestData.CopyText | db_scripts/popular_tabelas.py:134-137 | The buffer after the write loop: one tab-joined, newline-terminated line per operation, in order |
| TestData.CompanyMailbox | db_scripts/popular_tabelas.py:79 | A company mailbox has at most 15 characters and no space or comma |
| TestData.ClientEmail | db_scripts/popular_tabelas.py:76-83 | A company email is `contato@<mailbox>.com`; a person's email is the lowercased name with spaces as dots, `@`, the domain |
| TestData.Clients | db_scripts/popular_tabelas.py:74-86 | One client per draw, in order |
| TestData.GenerateClients | db_scripts/popular_tabelas.py:72-86 | The loop builds exactly the client list |
| TestData.ClientTable.Truncate | db_scripts/popular_tabelas.py:68 | Truncation empties the table and restarts the identity at 1 |
| TestData.ClientTable.Insert | db_scripts/popular_tabelas.py:89-94 | An insert appends the client and returns the next id |
| TestData.InsertClients | db_scripts/popular_tabelas.py:91-94 | The client ids are collected in insertion order, one per client, consecutive from the identity |
| TestData.SerialDistinct | db_scripts/popular_tabelas.py:91-94 | The collected ids are pairwise distinct |
| TestData.Without | db_scripts/popular_tabelas.py:104 | The destination choices are exactly the places other than the origin |
| TestData.LocaisLeaveDestination | db_scripts/popular_tabelas.py:30-37 | For every origin the destination list is non-empty, so the draw cannot fail |
| TestData.CodigoInjective | db_scripts/popular_tabelas.py:121 | Two codes `OP-<year>-<i+1 as 6 digits>` are equal only for the same year and index |
| TestData.Observacao | db_scripts/popular_tabelas.py:117-118 | A missing template gives no note; a template without `{nome}` is kept verbatim |
| TestData.PorterNote | db_scripts/popular_tabelas.py:117-118 | The porter template gets the drawn first name in place of `{nome}` |
| TestData.MakeOperation | db_scripts/popular_tabelas.py:101-129 | Destination differs from origin; both are listed places; the delivery is present iff the status is `ENTREGUE`, between 2 days before and 1 day after the forecast and at the issue's time of day; the forecast is 2 to 15 days after issue; the code follows the rule |
| TestData.Operations | db_scripts/popular_tabelas.py:100-130 | One operation per index, built from its own draw |
| TestData.CodesDistinct | db_scripts/popular_tabelas.py:101-121 | The operation codes of one run are pairwise distinct |
| TestData.GenerateOperations | db_scripts/popular_tabelas.py:100-130 | The loop builds exactly the operation list |
| TestData.Fields | db_scripts/popular_tabelas.py:120-129 | An operation has 19 fields; only the delivery date and the note can be missing, and each exactly when it is |
| TestData.DateCells | db_scripts/popular_tabelas.py:107-122 | The issue and delivery cells are datetimes showing the issue's time of day; the forecast cell is a bare date |
| TestData.FieldsMatchColumns | db_scripts/popular_tabelas.py:141-146 | The field count equals the COPY column list, with the optional fields at the matching columns |
| TestData.Cell | db_scripts/popular_tabelas.py:136 | A cell never contains a tab |
| TestData.CellRoundTrip | db_scripts/popular_tabelas.py:136 | A missing value is written `\N` and read back as missing; a value with neither tab nor backslash is read back unchanged by COPY's decoding |
| TestData.UnescapePlain | db_scripts/popular_tabelas.py:136 | COPY's backslash decoding leaves text without a backslash unchanged |
| TestData.ExampleBackslashPath | db_scripts/popular_tabelas.py:136 | The value `C:\temp` is written unescaped and read back with a tab in place of `\t` |
| TestData.CopyLineSplits | db_scripts/popular_tabelas.py:136-137 | A line ends in `\n` and splitting its body at tabs gives back exactly the cells |
| TestData.OperationLine | db_scripts/popular_tabelas.py:135-147 | When no field holds a tab or a backslash, an operation's line splits into 19 cells that COPY reads back as its fields |
| TestData.OneLinePerOperation | db_scripts/popular_tabelas.py:135-137 | When no field holds a newline, the buffer has exactly one newline per operation |
| TestData.WriteBuffer | db_scripts/popular_tabelas.py:134-137 | The write loop produces exactly the COPY text |
| TestData.PopularBanco | db_scripts/popular_tabelas.py:51-147 | With 120 clients and 250000 operations the table holds the generated clients and the buffer holds the operations built from their ids |
| ChartComponent.Truthy | frontend/src/components/ChartComponent.js:95-97 | JavaScript truthiness as the `?:` and `||` defaults test it: undefined, null, false, any zero numeral and `""` are falsy, everything else (an empty array included) is truthy |
| ChartComponent.Process | frontend/src/components/ChartComponent.js:101-105 | `{ ...item, name: item[xKey], value: item[yKey] }`: the item's keys plus `name` and `value` |
| ChartComponent.ProcessData | frontend/src/components/ChartComponent.js:101-105 | `data.map(...)`: None when some item is null and the map throws, otherwise one processed row per item, in order |
| ChartComponent.Legend | frontend/src/components/ChartComponent.js:108-111 | The two legend entries: `Eixo Y: ` with the label, and `Eixo X: ` with the X key, every `_` shown as a space |
| ChartComponent.RenderChart | frontend/src/components/ChartComponent.js:93-175 | renderChart: None where it throws (data not an array, a null item, an X key that is not a string); otherwise a pie for `pie`, a line chart for `line` and a bar chart for anything else, over the mapped rows |
| ChartComponent.ChartComponentView | frontend/src/components/ChartComponent.js:178-185 | The component: the reply's title as heading over the rendered chart; None when renderChart throws |
| ChartComponent.AxesOf | frontend/src/components/ChartComponent.js:95-97 | X key is `x_axis` or `name` when falsy; Y key is `y_axis[0]`, `value` when falsy, undefined for an empty list; label is `y_axis_label` or the Y key |
| ChartComponent.KindOf | frontend/src/components/ChartComponent.js:114-152 | `pie` is a pie chart, `line` a line chart, every other value (missing included) a bar chart |
| ChartComponent.PieCells | frontend/src/components/ChartComponent.js:159-166 | Slice i is filled with colour `i mod 7` of the palette |
| ChartComponent.BarCells | frontend/src/components/ChartComponent.js:139-146 | Every bar cell has the same fill, stroke and width |
| ChartComponent.ProcessedObjectRow | frontend/src/components/ChartComponent.js:101-105 | A mapped row keeps every other field, and `name`/`value` become the item's fields under the two keys, overriding any existing ones |
| ChartComponent.ProcessDataShape | frontend/src/components/ChartComponent.js:101-105 | The mapping throws exactly when an item is null; otherwise it has the length and order of `data` |
| ChartComponent.ProcessIdempotent | frontend/src/components/ChartComponent.js:101-105 | Mapping mapped rows again changes nothing, as long as the X key is not `value` and the Y key is not `name` |
| ChartComponent.ProcessNotIdempotentOnValueKey | frontend/src/components/ChartComponent.js:101-105 | With `x_axis` = `value`, mapping twice differs from mapping once |
| ChartComponent.DefaultKeysKeepFields | frontend/src/components/ChartComponent.js:95-105 | With the default keys no existing field of a row changes |
| ChartComponent.RenderOutcome | frontend/src/components/ChartComponent.js:85-111 | The chart is drawn exactly when `data` is an array without null items and the X key is a string; its rows are the mapped items |
| ChartComponent.RenderKind | frontend/src/components/ChartComponent.js:114-173 | A drawn chart is a pie iff `chart_type` is `pie`, and a line chart iff it is `line` |
| ChartComponent.RenderCartesianParts | frontend/src/components/ChartComponent.js:108-146 | A bar/line chart names its series after the Y label, builds the legend from it and the X key, and fills every cell alike |
| ChartComponent.PieColoursCycle | frontend/src/components/ChartComponent.js:160-162 | Each slice has a palette colour, slices 7 apart share one, and any 7 neighbouring slices all differ |
| ChartComponent.LegendXText | frontend/src/components/ChartComponent.js:110 | The X legend is `Eixo X: ` then the X key with every `_` as a space; no `_` remains and the length is kept |
| ChartComponent.ExampleFreightByState | backend/app/prompts/sql_prompts.py:151-160 | A freight-by-state bar reply draws a bar `SP` of 15000.00 with legends `Eixo Y: Valor do Frete (R$)` and `Eixo X: uf destino` |
| ChartComponent.ExampleEmptyYAxis | frontend/src/components/ChartComponent.js:95-104 | An empty `y_axis` list is truthy: values are read from the property `undefined` and the legend reads `Eixo Y: undefined` |
| ChartComponent.ExampleNumericXAxis | frontend/src/components/ChartComponent.js:96-110 | A truthy non-string `x_axis` makes rendering throw; a zero falls back to `name` |

## Left out

- **Language models, prompts and output parsers.** `ChatGroq`, `PromptTemplate`/`FewShotPromptTemplate` rendering, `StrOutputParser`, `JsonOutputParser` and the retriever are foreign code. Each is a function parameter that may fail (`None`).
- **History.** `RunnableWithMessageHistory` appends each exchange to the session history automatically. That append is not modelled; the history is read, never grown by the chain.
- **The `chat_history` prompt variable.** It is never supplied by the master chain's caller. It counts as one more way the prompt step can fail.
- **The `get_response` endpoint call.** The endpoint calls `get_response` with one argument while it takes two. `backend/app/api/endpoints/chat.py` is not part of this model.
- **Infrastructure.** HTTP endpoints, timing, the dashboard, the vector store and ingestion, the SQLite exporters and the Postgres DDL are I/O wrappers outside this core.
- **Logging and `print`.** Neither is modelled.
- **Database results.** The database is a function from query text to a result string or an exception message. The rendering of `SQLDatabase.run` results is not modelled.
- **SQL execution.** Postgres enum introspection is a function from type name to its values; a failure of either query is an exception.
- **Randomness.** Faker, `random`, `Decimal` arithmetic and `datetime` are draw parameters. Money, weight and tracking-code fields are strings already rendered. Dates are day numbers with a rendering function; a datetime adds its time of day as the text `str()` shows.
- **COPY decoding.** `TestData.ReadCell` decodes PostgreSQL's backslash escapes one field at a time. Three effects of the unescaped output are not modelled: a backslash before the tab that closes a field escapes that tab and merges two fields; a backslash at the end of the last field (`observacoes`) escapes the row's newline, so the row runs on into the next line; and PostgreSQL rejects a raw carriage return in a newline-terminated stream. An octal or hex escape above 127 is read as the character with that code, not as a byte in the server encoding.
- **Letter case.** `str.lower`/`str.upper` are modelled for ASCII and Latin-1 letters, including `ÿ` and `µ`, whose capitals `Ÿ` and Greek `Μ` lie outside Latin-1. Letters of other scripts, and `ß`, whose upper case is two letters, are left unchanged.
- **Description texts.** The free-text descriptions in the two theme dictionaries are copied verbatim into the `descricao` columns and play no part in any rule. `Themes(texts)` therefore takes them as a parameter, and the seed lemmas and `RunSeed` hold for every `texts` of the dictionary's shape (`Fits`). The scripts' own texts are the `...Texts` constants, gathered in `DictionaryTexts`, and `DictionaryTextsFit` shows that they have that shape, so every seed lemma and `RunSeed` applies to them. No lemma states the seeded rows for those exact strings.
- **Storage.** Catalog ids are the counters of SQLite's AUTOINCREMENT, restarting at 1 after the tables are dropped. Session flushes and the final commit are not modelled separately: rows are visible as soon as they are added.
- **`sincronizar_catalogo`.** The JSON file is an `Option` of schema/table/column inputs; `None` is a missing file. Malformed JSON, missing keys and a failing commit are not modelled.
- **Chart rendering.** The React elements, `recharts` drawing, `Intl.NumberFormat` and the pie tooltip percentage are UI library calls. The model stops at the data, the cells and the legend and tooltip texts the component passes to them.
- **Chart values.** A number's `String()` is taken to be its JSON literal as written (JavaScript would print its canonical form). A number with a non-zero mantissa that underflows to 0 is taken as truthy.
- **Chart rows.** A data item that is an array or string is modelled as having no properties (JavaScript would also expose its indices and `length`). A property lookup sees own properties only, not those inherited from `Object.prototype`.
- **String indexing.** `y_axis[0]` on a string takes its first Unicode character, not its first UTF-16 code unit.
- **Key order.** JavaScript objects keep insertion order; the model's rows are maps and do not record it.
