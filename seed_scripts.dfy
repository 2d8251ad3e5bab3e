/**
 * The theme dictionary of scripts/populate_db.py: two business areas.
 */
module ScriptsSeed {
  import opened CatalogDb
  import opened CatalogSeed

  /**
   * Whether `texts` has the dictionary's shape: one list per table theme, in
   * dictionary order, holding the table's description and then one per column tuple.
   */
  predicate Fits(texts: seq<seq<string>>) {
    |texts| == 5
    && |texts[0]| == 8 && |texts[1]| == 7 && |texts[2]| == 8 && |texts[3]| == 9
    && |texts[4]| == 7
  }

  /** The Clientes table theme; `t` holds its description, then its columns' in order. */
  function VendasClientes(t: seq<string>): TableTheme
    requires |t| == 8
  {
    TableTheme("Clientes", "DIM", t[0], [
      ColumnTheme("ID_CLIENTE", "INTEGER", "ID do Cliente", t[1], true),
      ColumnTheme("CD_CLIENTE_LEGADO", "VARCHAR(50)", "Código Legado do Cliente", t[2], false),
      ColumnTheme("NM_CLIENTE", "VARCHAR(200)", "Nome do Cliente", t[3], false),
      ColumnTheme("TIPO_PESSOA", "CHAR(1)", "Tipo de Pessoa (F/J)", t[4], false),
      ColumnTheme("DT_NASCIMENTO", "DATE", "Data de Nascimento", t[5], false),
      ColumnTheme("EMAIL_CONTATO", "VARCHAR(100)", "E-mail de Contato", t[6], false),
      ColumnTheme("DT_CADASTRO", "TIMESTAMP", "Data de Cadastro", t[7], false)])
  }

  /** The Produtos table theme; `t` holds its description, then its columns' in order. */
  function VendasProdutos(t: seq<string>): TableTheme
    requires |t| == 7
  {
    TableTheme("Produtos", "DIM", t[0], [
      ColumnTheme("ID_PRODUTO", "INTEGER", "ID do Produto", t[1], true),
      ColumnTheme("CD_SKU", "VARCHAR(50)", "Código SKU do Produto", t[2], false),
      ColumnTheme("NM_PRODUTO", "VARCHAR(250)", "Nome do Produto", t[3], false),
      ColumnTheme("DS_CATEGORIA", "VARCHAR(100)", "Descrição da Categoria", t[4], false),
      ColumnTheme("DS_MARCA", "VARCHAR(100)", "Descrição da Marca", t[5], false),
      ColumnTheme("VL_PRECO_UNITARIO", "DECIMAL(18,2)", "Valor do Preço Unitário", t[6], false)])
  }

  /** The Vendas table theme; `t` holds its description, then its columns' in order. */
  function VendasVendas(t: seq<string>): TableTheme
    requires |t| == 8
  {
    TableTheme("Vendas", "FAT", t[0], [
      ColumnTheme("ID_CLIENTE", "INTEGER", "ID do Cliente (FK)", t[1], false),
      ColumnTheme("ID_PRODUTO", "INTEGER", "ID do Produto (FK)", t[2], false),
      ColumnTheme("ID_PEDIDO", "INTEGER", "ID do Pedido", t[3], false),
      ColumnTheme("DT_VENDA", "DATE", "Data da Venda", t[4], false),
      ColumnTheme("QTD_VENDIDA", "INTEGER", "Quantidade Vendida", t[5], false),
      ColumnTheme("VL_UNITARIO_PRATICADO", "DECIMAL(18,2)", "Valor Unitário Praticado", t[6], false),
      ColumnTheme("VL_TOTAL_ITEM", "DECIMAL(18,2)", "Valor Total do Item", t[7], false)])
  }

  /** The Colaboradores table theme; `t` holds its description, then its columns' in order. */
  function RecursosHumanosColaboradores(t: seq<string>): TableTheme
    requires |t| == 9
  {
    TableTheme("Colaboradores", "DIM", t[0], [
      ColumnTheme("ID_COLABORADOR", "INTEGER", "ID do Colaborador", t[1], true),
      ColumnTheme("MATRICULA", "VARCHAR(20)", "Matrícula do Colaborador", t[2], false),
      ColumnTheme("NM_COMPLETO", "VARCHAR(250)", "Nome Completo", t[3], false),
      ColumnTheme("CPF", "VARCHAR(11)", "CPF", t[4], false),
      ColumnTheme("DS_CARGO", "VARCHAR(100)", "Descrição do Cargo", t[5], false),
      ColumnTheme("DS_DEPARTAMENTO", "VARCHAR(100)", "Descrição do Departamento", t[6], false),
      ColumnTheme("DT_ADMISSAO", "DATE", "Data de Admissão", t[7], false),
      ColumnTheme("DT_DESLIGAMENTO", "DATE", "Data de Desligamento", t[8], false)])
  }

  /** The FolhaPagamento table theme; `t` holds its description, then its columns' in order. */
  function RecursosHumanosFolhaPagamento(t: seq<string>): TableTheme
    requires |t| == 7
  {
    TableTheme("FolhaPagamento", "FAT", t[0], [
      ColumnTheme("ID_COLABORADOR", "INTEGER", "ID do Colaborador (FK)", t[1], false),
      ColumnTheme("DT_COMPETENCIA", "DATE", "Data de Competência", t[2], false),
      ColumnTheme("VL_SALARIO_BASE", "DECIMAL(18,2)", "Valor do Salário Base", t[3], false),
      ColumnTheme("VL_PROVENTOS", "DECIMAL(18,2)", "Valor Total de Proventos", t[4], false),
      ColumnTheme("VL_DESCONTOS", "DECIMAL(18,2)", "Valor Total de Descontos", t[5], false),
      ColumnTheme("VL_LIQUIDO", "DECIMAL(18,2)", "Valor Líquido", t[6], false)])
  }

  /** The Vendas area, its schema under the DW prefix. */
  function VendasArea(texts: seq<seq<string>>): Theme
    requires Fits(texts)
  {
    Theme("Vendas", "DW", [VendasClientes(texts[0]), VendasProdutos(texts[1]), VendasVendas(texts[2])])
  }

  /** The Recursos Humanos area, its schema under the DM prefix. */
  function RecursosHumanosArea(texts: seq<seq<string>>): Theme
    requires Fits(texts)
  {
    Theme("Recursos Humanos", "DM", [RecursosHumanosColaboradores(texts[3]), RecursosHumanosFolhaPagamento(texts[4])])
  }

  /** DATA_CATALOG_THEMES, in dictionary order, with the descriptions drawn from `texts`. */
  function Themes(texts: seq<seq<string>>): seq<Theme>
    requires Fits(texts)
  {
    [VendasArea(texts), RecursosHumanosArea(texts)]
  }

  /** The schema names differ in their first letter after the prefix. */
  lemma SchemaNamesDistinct(texts: seq<seq<string>>)
    requires Fits(texts)
    ensures DistinctNames(Themes(texts))
  {
    SchemaNameInitial(VendasArea(texts));
    SchemaNameInitial(RecursosHumanosArea(texts));
    assert Themes(texts)[0] == VendasArea(texts) && Themes(texts)[1] == RecursosHumanosArea(texts);
  }

  /** The Vendas area lists 3 table themes with 20 column tuples between them. */
  lemma VendasColumns(texts: seq<seq<string>>)
    requires Fits(texts)
    ensures |VendasArea(texts).tableThemes| == 3 && ColumnCount(VendasArea(texts).tableThemes) == 20
  {
    assert VendasArea(texts).tableThemes == [VendasClientes(texts[0])] + [VendasProdutos(texts[1])] + [VendasVendas(texts[2])];
    ColumnCountAppend([VendasClientes(texts[0])], [VendasProdutos(texts[1])]);
    ColumnCountAppend([VendasClientes(texts[0])] + [VendasProdutos(texts[1])], [VendasVendas(texts[2])]);
  }

  /** The Recursos Humanos area lists 2 table themes with 14 column tuples between them. */
  lemma RecursosHumanosColumns(texts: seq<seq<string>>)
    requires Fits(texts)
    ensures |RecursosHumanosArea(texts).tableThemes| == 2 && ColumnCount(RecursosHumanosArea(texts).tableThemes) == 14
  {
    assert RecursosHumanosArea(texts).tableThemes == [RecursosHumanosColaboradores(texts[3])] + [RecursosHumanosFolhaPagamento(texts[4])];
    ColumnCountAppend([RecursosHumanosColaboradores(texts[3])], [RecursosHumanosFolhaPagamento(texts[4])]);
  }

  /** The theme dictionary holds 5 table themes and 34 column tuples. */
  lemma Totals(texts: seq<seq<string>>)
    requires Fits(texts)
    ensures |Themes(texts)| == 2 && ThemesTableCount(Themes(texts)) == 5 && ThemesColumnCount(Themes(texts)) == 34
  {
    VendasColumns(texts);
    RecursosHumanosColumns(texts);
    assert Themes(texts) == [VendasArea(texts)] + [RecursosHumanosArea(texts)];
    ThemesCountAppend([VendasArea(texts)], [RecursosHumanosArea(texts)]);
  }

  /**
   * Seeding fresh tables succeeds and writes 2 schema rows, 5 table rows
   * and 34 column rows, each column nullable exactly when it is not a key.
   */
  lemma SeedSucceeds(texts: seq<seq<string>>)
    requires Fits(texts)
    ensures Populate(Empty(), Themes(texts)).Some?
    ensures var r := Populate(Empty(), Themes(texts)).value;
      |r.schemas| == 2 && |r.tables| == 5 && |r.columns| == 34
      && NullableUnlessKey(r.columns) && PhysicalTables(r.tables)
  {
    SchemaNamesDistinct(texts);
    PopulateSucceeds(Empty(), Themes(texts));
    Totals(texts);
    SeededRows(Themes(texts));
  }

  /**
   * main: recreate the tables and seed them from this dictionary; the summary totals
   * come back. The script passes its own descriptions, the `...Texts` constants below.
   */
  method RunSeed(store: CatalogStore, texts: seq<seq<string>>) returns (totalTables: nat, totalColumns: nat)
    requires store.Valid() && Fits(texts)
    modifies store
    ensures store.Valid() && Populate(Empty(), Themes(texts)).Some?
    ensures store.Snapshot() == Populate(Empty(), Themes(texts)).value
    ensures totalTables == 5 && totalColumns == 34
  {
    SeedSucceeds(texts);
    Totals(texts);
    var ok;
    ok, totalTables, totalColumns := Seed(store, Themes(texts));
  }

  // The dictionary's own descriptions: per table theme, its description and then its columns'.

  const VendasClientesTexts: seq<string> := [
    "Tabela dimensão que armazena o cadastro de todos os clientes da empresa, com dados demográficos e de contato. É a fonte única da verdade para informações de clientes.",
    "Chave primária artificial (surrogate key) para a dimensão de clientes.",
    "Código do cliente no sistema de origem (ERP).",
    "Nome completo ou razão social do cliente.",
    "Indica se o cliente é Pessoa Física (F) ou Jurídica (J).",
    "Data de nascimento para clientes do tipo pessoa física.",
    "Endereço de e-mail principal para contato com o cliente.",
    "Data e hora em que o cliente foi inserido no sistema."]

  const VendasProdutosTexts: seq<string> := [
    "Dimensão de produtos, contendo a lista de todos os itens disponíveis para venda, suas categorias, subcategorias e atributos.",
    "Chave primária artificial (surrogate key) para a dimensão de produtos.",
    "SKU (Stock Keeping Unit) único para identificação do produto.",
    "Nome comercial do produto.",
    "Categoria principal a qual o produto pertence.",
    "Marca do produto.",
    "Preço de venda padrão para uma unidade do produto."]

  const VendasVendasTexts: seq<string> := [
    "Tabela fato principal que armazena cada item de venda individualmente, permitindo análises de performance, quantidade e valores transacionados. É granular no nível de item por pedido.",
    "Chave estrangeira que referencia a tabela de dimensão de clientes.",
    "Chave estrangeira que referencia a tabela de dimensão de produtos.",
    "Identificador do pedido de venda ao qual o item pertence.",
    "Data em que a transação de venda ocorreu.",
    "Número de unidades do produto vendidas nesta transação.",
    "Preço unitário do produto no momento da venda, pode incluir descontos.",
    "Valor total para o item (Quantidade * Valor Unitário)."]

  const RecursosHumanosColaboradoresTexts: seq<string> := [
    "Armazena informações cadastrais e de carreira dos colaboradores ativos e inativos da organização.",
    "Chave primária da tabela de colaboradores.",
    "Número de matrícula funcional do colaborador.",
    "Nome completo do colaborador.",
    "Cadastro de Pessoa Física do colaborador.",
    "Cargo atual ocupado pelo colaborador.",
    "Departamento de lotação do colaborador.",
    "Data de início do contrato de trabalho.",
    "Data de término do contrato de trabalho, se aplicável."]

  const RecursosHumanosFolhaPagamentoTexts: seq<string> := [
    "Tabela fato mensal com os valores calculados da folha de pagamento para cada colaborador, incluindo proventos e descontos.",
    "Chave de ligação com a dimensão de colaboradores.",
    "Mês e ano a que se refere o pagamento (geralmente o último dia do mês).",
    "Salário contratual do colaborador para a competência.",
    "Soma de todos os ganhos (salário, bônus, horas extras).",
    "Soma de todas as deduções (INSS, IRRF, vales).",
    "Valor final a ser pago ao colaborador (Proventos - Descontos)."]

  /** The Vendas descriptions have the length their table themes take. */
  lemma VendasTextsFit()
    ensures |VendasClientesTexts| == 8 && |VendasProdutosTexts| == 7 && |VendasVendasTexts| == 8
  {
  }

  /** The Recursos Humanos descriptions have the length their table themes take. */
  lemma RecursosHumanosTextsFit()
    ensures |RecursosHumanosColaboradoresTexts| == 9 && |RecursosHumanosFolhaPagamentoTexts| == 7
  {
  }

  /** The script's descriptions, table theme by table theme in dictionary order. */
  const DictionaryTexts: seq<seq<string>> := [
    VendasClientesTexts, VendasProdutosTexts, VendasVendasTexts,
    RecursosHumanosColaboradoresTexts, RecursosHumanosFolhaPagamentoTexts]

  /** The script's own descriptions have the dictionary's shape, so `RunSeed` applies to them. */
  lemma DictionaryTextsFit()
    ensures Fits(DictionaryTexts)
  {
  }
}
