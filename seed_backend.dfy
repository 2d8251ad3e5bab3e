/**
 * The theme dictionary of backend/scripts/populate_db.py: three business areas, two of
 * them under the DW prefix.
 */
module BackendSeed {
  import opened CatalogDb
  import opened CatalogSeed

  /**
   * Whether `texts` has the dictionary's shape: one list per table theme, in
   * dictionary order, holding the table's description and then one per column tuple.
   */
  predicate Fits(texts: seq<seq<string>>) {
    |texts| == 8
    && |texts[0]| == 8 && |texts[1]| == 7 && |texts[2]| == 6 && |texts[3]| == 8
    && |texts[4]| == 8 && |texts[5]| == 7 && |texts[6]| == 5 && |texts[7]| == 7
  }

  /** The Clientes table theme; `t` holds its description, then its columns' in order. */
  function VendasClientes(t: seq<string>): TableTheme
    requires |t| == 8
  {
    TableTheme("Clientes", "DIM", t[0], [
      ColumnTheme("ID_CLIENTE", "INTEGER", "ID do Cliente", t[1], true),
      ColumnTheme("CD_CLIENTE_LEGADO", "VARCHAR(50)", "Código Legado do Cliente", t[2], false),
      ColumnTheme("NM_CLIENTE", "VARCHAR(200)", "Nome do Cliente", t[3], false),
      ColumnTheme("TIPO_PESSOA", "CHAR(1)", "Tipo de Pessoa (F/J)", t[4], false),
      ColumnTheme("DT_NASCIMENTO", "DATE", "Data de Nascimento", t[5], false),
      ColumnTheme("EMAIL_CONTATO", "VARCHAR(100)", "E-mail de Contato", t[6], false),
      ColumnTheme("DT_CADASTRO", "TIMESTAMP", "Data de Cadastro", t[7], false)])
  }

  /** The Produtos table theme; `t` holds its description, then its columns' in order. */
  function VendasProdutos(t: seq<string>): TableTheme
    requires |t| == 7
  {
    TableTheme("Produtos", "DIM", t[0], [
      ColumnTheme("ID_PRODUTO", "INTEGER", "ID do Produto", t[1], true),
      ColumnTheme("CD_SKU", "VARCHAR(50)", "Código SKU do Produto", t[2], false),
      ColumnTheme("NM_PRODUTO", "VARCHAR(250)", "Nome do Produto", t[3], false),
      ColumnTheme("DS_CATEGORIA", "VARCHAR(100)", "Descrição da Categoria", t[4], false),
      ColumnTheme("DS_MARCA", "VARCHAR(100)", "Descrição da Marca", t[5], false),
      ColumnTheme("VL_PRECO_UNITARIO", "DECIMAL(18,2)", "Valor do Preço Unitário", t[6], false)])
  }

  /** The Lojas table theme; `t` holds its description, then its columns' in order. */
  function VendasLojas(t: seq<string>): TableTheme
    requires |t| == 6
  {
    TableTheme("Lojas", "DIM", t[0], [
      ColumnTheme("ID_LOJA", "INTEGER", "ID da Loja", t[1], true),
      ColumnTheme("NM_LOJA", "VARCHAR(150)", "Nome da Loja", t[2], false),
      ColumnTheme("DS_CIDADE", "VARCHAR(100)", "Cidade da Loja", t[3], false),
      ColumnTheme("DS_ESTADO", "CHAR(2)", "Estado da Loja", t[4], false),
      ColumnTheme("NM_GERENTE", "VARCHAR(200)", "Nome do Gerente Regional", t[5], false)])
  }

  /** The Calendario table theme; `t` holds its description, then its columns' in order. */
  function VendasCalendario(t: seq<string>): TableTheme
    requires |t| == 8
  {
    TableTheme("Calendario", "DIM", t[0], [
      ColumnTheme("ID_DATA", "INTEGER", "ID da Data (SK)", t[1], true),
      ColumnTheme("DATA_COMPLETA", "DATE", "Data Completa", t[2], false),
      ColumnTheme("NR_ANO", "INTEGER", "Número do Ano", t[3], false),
      ColumnTheme("NR_MES", "INTEGER", "Número do Mês", t[4], false),
      ColumnTheme("NM_MES", "VARCHAR(20)", "Nome do Mês", t[5], false),
      ColumnTheme("NR_TRIMESTRE", "INTEGER", "Número do Trimestre", t[6], false),
      ColumnTheme("NM_DIA_SEMANA", "VARCHAR(20)", "Nome do Dia da Semana", t[7], false)])
  }

  /** The Vendas table theme; `t` holds its description, then its columns' in order. */
  function VendasVendas(t: seq<string>): TableTheme
    requires |t| == 8
  {
    TableTheme("Vendas", "FAT", t[0], [
      ColumnTheme("ID_CLIENTE", "INTEGER", "ID do Cliente (FK)", t[1], false),
      ColumnTheme("ID_PRODUTO", "INTEGER", "ID do Produto (FK)", t[2], false),
      ColumnTheme("ID_LOJA", "INTEGER", "ID da Loja (FK)", t[3], false),
      ColumnTheme("ID_DATA_VENDA", "INTEGER", "ID da Data da Venda (FK)", t[4], false),
      ColumnTheme("ID_PEDIDO", "INTEGER", "ID do Pedido de Venda", t[5], false),
      ColumnTheme("QTD_VENDIDA", "INTEGER", "Quantidade Vendida", t[6], false),
      ColumnTheme("VL_TOTAL_ITEM", "DECIMAL(18,2)", "Valor Total do Item", t[7], false)])
  }

  /** The Colaboradores table theme; `t` holds its description, then its columns' in order. */
  function RecursosHumanosColaboradores(t: seq<string>): TableTheme
    requires |t| == 7
  {
    TableTheme("Colaboradores", "DIM", t[0], [
      ColumnTheme("ID_COLABORADOR", "INTEGER", "ID do Colaborador", t[1], true),
      ColumnTheme("MATRICULA", "VARCHAR(20)", "Matrícula do Colaborador", t[2], false),
      ColumnTheme("NM_COMPLETO", "VARCHAR(250)", "Nome Completo do Colaborador", t[3], false),
      ColumnTheme("DS_CARGO", "VARCHAR(100)", "Descrição do Cargo", t[4], false),
      ColumnTheme("DS_DEPARTAMENTO", "VARCHAR(100)", "Descrição do Departamento", t[5], false),
      ColumnTheme("DT_ADMISSAO", "DATE", "Data de Admissão", t[6], false)])
  }

  /** The PlanoContas table theme; `t` holds its description, then its columns' in order. */
  function FinancasPlanoContas(t: seq<string>): TableTheme
    requires |t| == 5
  {
    TableTheme("PlanoContas", "DIM", t[0], [
      ColumnTheme("ID_CONTA", "INTEGER", "ID da Conta Contábil", t[1], true),
      ColumnTheme("CD_CONTA_CONTABIL", "VARCHAR(30)", "Código da Conta Contábil", t[2], false),
      ColumnTheme("DS_CONTA", "VARCHAR(200)", "Descrição da Conta", t[3], false),
      ColumnTheme("TIPO_CONTA", "CHAR(1)", "Tipo de Conta (A/P/R/D)", t[4], false)])
  }

  /** The LancamentosContabeis table theme; `t` holds its description, then its columns' in order. */
  function FinancasLancamentosContabeis(t: seq<string>): TableTheme
    requires |t| == 7
  {
    TableTheme("LancamentosContabeis", "FAT", t[0], [
      ColumnTheme("ID_LANCAMENTO", "BIGINT", "ID do Lançamento", t[1], true),
      ColumnTheme("ID_DATA_LANCAMENTO", "INTEGER", "ID da Data do Lançamento (FK)", t[2], false),
      ColumnTheme("ID_CONTA_CONTABIL", "INTEGER", "ID da Conta Contábil (FK)", t[3], false),
      ColumnTheme("VL_DEBITO", "DECIMAL(18,2)", "Valor do Débito", t[4], false),
      ColumnTheme("VL_CREDITO", "DECIMAL(18,2)", "Valor do Crédito", t[5], false),
      ColumnTheme("DS_HISTORICO", "VARCHAR(500)", "Descrição do Histórico do Lançamento", t[6], false)])
  }

  /** The Vendas area, its schema under the DW prefix. */
  function VendasArea(texts: seq<seq<string>>): Theme
    requires Fits(texts)
  {
    Theme("Vendas", "DW", [VendasClientes(texts[0]), VendasProdutos(texts[1]), VendasLojas(texts[2]), VendasCalendario(texts[3]), VendasVendas(texts[4])])
  }

  /** The Recursos Humanos area, its schema under the DM prefix. */
  function RecursosHumanosArea(texts: seq<seq<string>>): Theme
    requires Fits(texts)
  {
    Theme("Recursos Humanos", "DM", [RecursosHumanosColaboradores(texts[5])])
  }

  /** The Finanças area, its schema under the DW prefix. */
  function FinancasArea(texts: seq<seq<string>>): Theme
    requires Fits(texts)
  {
    Theme("Finanças", "DW", [FinancasPlanoContas(texts[6]), FinancasLancamentosContabeis(texts[7])])
  }

  /** DATA_CATALOG_THEMES, in dictionary order, with the descriptions drawn from `texts`. */
  function Themes(texts: seq<seq<string>>): seq<Theme>
    requires Fits(texts)
  {
    [VendasArea(texts), RecursosHumanosArea(texts), FinancasArea(texts)]
  }

  /** The schema names differ in their first letter after the prefix. */
  lemma SchemaNamesDistinct(texts: seq<seq<string>>)
    requires Fits(texts)
    ensures DistinctNames(Themes(texts))
  {
    SchemaNameInitial(VendasArea(texts));
    SchemaNameInitial(RecursosHumanosArea(texts));
    SchemaNameInitial(FinancasArea(texts));
    assert Themes(texts)[0] == VendasArea(texts) && Themes(texts)[1] == RecursosHumanosArea(texts) && Themes(texts)[2] == FinancasArea(texts);
  }

  /** The Vendas area lists 5 table themes with 32 column tuples between them. */
  lemma VendasColumns(texts: seq<seq<string>>)
    requires Fits(texts)
    ensures |VendasArea(texts).tableThemes| == 5 && ColumnCount(VendasArea(texts).tableThemes) == 32
  {
    assert VendasArea(texts).tableThemes == [VendasClientes(texts[0])] + [VendasProdutos(texts[1])] + [VendasLojas(texts[2])] + [VendasCalendario(texts[3])] + [VendasVendas(texts[4])];
    ColumnCountAppend([VendasClientes(texts[0])], [VendasProdutos(texts[1])]);
    ColumnCountAppend([VendasClientes(texts[0])] + [VendasProdutos(texts[1])], [VendasLojas(texts[2])]);
    ColumnCountAppend([VendasClientes(texts[0])] + [VendasProdutos(texts[1])] + [VendasLojas(texts[2])], [VendasCalendario(texts[3])]);
    ColumnCountAppend([VendasClientes(texts[0])] + [VendasProdutos(texts[1])] + [VendasLojas(texts[2])] + [VendasCalendario(texts[3])], [VendasVendas(texts[4])]);
  }

  /** The Recursos Humanos area lists 1 table theme with 6 column tuples between them. */
  lemma RecursosHumanosColumns(texts: seq<seq<string>>)
    requires Fits(texts)
    ensures |RecursosHumanosArea(texts).tableThemes| == 1 && ColumnCount(RecursosHumanosArea(texts).tableThemes) == 6
  {
    assert RecursosHumanosArea(texts).tableThemes == [RecursosHumanosColaboradores(texts[5])];
  }

  /** The Finanças area lists 2 table themes with 10 column tuples between them. */
  lemma FinancasColumns(texts: seq<seq<string>>)
    requires Fits(texts)
    ensures |FinancasArea(texts).tableThemes| == 2 && ColumnCount(FinancasArea(texts).tableThemes) == 10
  {
    assert FinancasArea(texts).tableThemes == [FinancasPlanoContas(texts[6])] + [FinancasLancamentosContabeis(texts[7])];
    ColumnCountAppend([FinancasPlanoContas(texts[6])], [FinancasLancamentosContabeis(texts[7])]);
  }

  /** The theme dictionary holds 8 table themes and 48 column tuples. */
  lemma Totals(texts: seq<seq<string>>)
    requires Fits(texts)
    ensures |Themes(texts)| == 3 && ThemesTableCount(Themes(texts)) == 8 && ThemesColumnCount(Themes(texts)) == 48
  {
    VendasColumns(texts);
    RecursosHumanosColumns(texts);
    FinancasColumns(texts);
    assert Themes(texts) == [VendasArea(texts)] + [RecursosHumanosArea(texts)] + [FinancasArea(texts)];
    ThemesCountAppend([VendasArea(texts)], [RecursosHumanosArea(texts)]);
    ThemesCountAppend([VendasArea(texts)] + [RecursosHumanosArea(texts)], [FinancasArea(texts)]);
  }

  /**
   * Seeding fresh tables succeeds and writes 3 schema rows, 8 table rows
   * and 48 column rows, each column nullable exactly when it is not a key.
   */
  lemma SeedSucceeds(texts: seq<seq<string>>)
    requires Fits(texts)
    ensures Populate(Empty(), Themes(texts)).Some?
    ensures var r := Populate(Empty(), Themes(texts)).value;
      |r.schemas| == 3 && |r.tables| == 8 && |r.columns| == 48
      && NullableUnlessKey(r.columns) && PhysicalTables(r.tables)
  {
    SchemaNamesDistinct(texts);
    PopulateSucceeds(Empty(), Themes(texts));
    Totals(texts);
    SeededRows(Themes(texts));
  }

  /**
   * main: recreate the tables and seed them from this dictionary; the summary totals
   * come back. The script passes its own descriptions, the `...Texts` constants below.
   */
  method RunSeed(store: CatalogStore, texts: seq<seq<string>>) returns (totalTables: nat, totalColumns: nat)
    requires store.Valid() && Fits(texts)
    modifies store
    ensures store.Valid() && Populate(Empty(), Themes(texts)).Some?
    ensures store.Snapshot() == Populate(Empty(), Themes(texts)).value
    ensures totalTables == 8 && totalColumns == 48
  {
    SeedSucceeds(texts);
    Totals(texts);
    var ok;
    ok, totalTables, totalColumns := Seed(store, Themes(texts));
  }

  // The dictionary's own descriptions: per table theme, its description and then its columns'.

  const VendasClientesTexts: seq<string> := [
    "Tabela dimensão que armazena o cadastro mestre de todos os clientes da empresa, sejam eles pessoas físicas ou jurídicas. É a fonte única da verdade para informações de clientes.",
    "Chave primária artificial (surrogate key) que identifica unicamente cada cliente no Data Warehouse.",
    "Identificador do cliente no sistema de origem (ERP, CRM), usado para referência cruzada.",
    "Nome completo para pessoa física ou razão social para pessoa jurídica.",
    "Flag que identifica o cliente como Pessoa Física (F) ou Jurídica (J).",
    "Data de nascimento para clientes PF, usada para análises demográficas e de idade.",
    "Endereço de e-mail principal para comunicação e envio de faturas ou marketing.",
    "Data e hora exatas em que o registro do cliente foi criado no sistema."]

  const VendasProdutosTexts: seq<string> := [
    "Dimensão de produtos, contendo o catálogo de todos os itens disponíveis para venda, seus atributos e classificações mercadológicas.",
    "Chave primária artificial (surrogate key) que identifica unicamente cada produto no Data Warehouse.",
    "SKU (Stock Keeping Unit) único usado pelo sistema de inventário para rastrear o item.",
    "Nome comercial completo do produto, como exibido para o cliente.",
    "Agrupamento principal do produto (ex: Eletrônicos, Vestuário, Alimentos).",
    "Fabricante ou marca do produto, importante para filtros de afinidade.",
    "Preço de prateleira padrão para uma unidade do produto, antes de descontos."]

  const VendasLojasTexts: seq<string> := [
    "Dimensão das lojas físicas e filiais da empresa, contendo informações de localização geográfica e responsabilidade gerencial.",
    "Chave primária que identifica unicamente cada loja ou centro de distribuição.",
    "Nome fantasia da filial ou loja para identificação em relatórios.",
    "Cidade onde a loja está fisicamente localizada.",
    "Sigla da Unidade Federativa (UF) da loja.",
    "Nome do gestor diretamente responsável pela filial."]

  const VendasCalendarioTexts: seq<string> := [
    "Tabela de dimensão de tempo, essencial para análises temporais. Contém atributos de data para facilitar a agregação por mês, trimestre, ano, etc.",
    "Chave primária no formato YYYYMMDD para ligação eficiente com tabelas fato.",
    "Data no formato completo e legível (YYYY-MM-DD).",
    "Ano extraído da data, como 2025.",
    "Mês numérico da data (1 a 12).",
    "Nome do mês por extenso (ex: Janeiro, Fevereiro).",
    "Trimestre do ano ao qual a data pertence (1 a 4).",
    "Dia da semana por extenso (ex: Segunda-feira)."]

  const VendasVendasTexts: seq<string> := [
    "Tabela fato principal que registra as transações de venda na menor granularidade (item por pedido). É a base para a maioria das análises de performance de negócio.",
    "Chave estrangeira (Foreign Key) que referencia a dimensão de clientes.",
    "Chave estrangeira (Foreign Key) que referencia a dimensão de produtos.",
    "Chave estrangeira (Foreign Key) que referencia a dimensão de lojas.",
    "Chave estrangeira para a dimensão calendário, ligando a venda a uma data específica.",
    "Identificador do pedido de venda ao qual o item pertence.",
    "Número de unidades do produto vendidas nesta transação específica.",
    "Receita gerada pelo item na venda (Quantidade * Preço Praticado)."]

  const RecursosHumanosColaboradoresTexts: seq<string> := [
    "Dimensão mestre de colaboradores, contendo todos os dados pessoais e profissionais dos funcionários da empresa.",
    "Chave primária que identifica unicamente cada colaborador no sistema de RH.",
    "Número de matrícula funcional, usado para identificação em sistemas internos.",
    "Nome civil completo do colaborador.",
    "Cargo oficial ocupado pelo colaborador (ex: Analista Financeiro, Gerente de Vendas).",
    "Departamento de lotação do colaborador (ex: Contabilidade, TI, Marketing).",
    "Data de início do vínculo empregatício do colaborador com a empresa."]

  const FinancasPlanoContasTexts: seq<string> := [
    "Dimensão do plano de contas contábil, que é a estrutura hierárquica de todas as contas usadas para registrar transações financeiras.",
    "Chave primária da conta.",
    "Código estruturado e hierárquico da conta (ex: 1.01.02.001).",
    "Nome descritivo da conta contábil (ex: Caixa, Fornecedores, Receita de Vendas).",
    "Define a natureza da conta: Ativo, Passivo, Receita ou Despesa."]

  const FinancasLancamentosContabeisTexts: seq<string> := [
    "Tabela fato com todos os lançamentos contábeis (débito e crédito) em sua menor granularidade. É a fonte primária para balancetes e DRE.",
    "Identificador único de cada transação contábil.",
    "Chave para a dimensão calendário, indicando quando a transação ocorreu.",
    "Chave para a dimensão de plano de contas.",
    "Valor lançado a débito na conta. Se for um lançamento a crédito, este campo é zero.",
    "Valor lançado a crédito na conta. Se for um lançamento a débito, este campo é zero.",
    "Descrição textual detalhada que explica a natureza e o motivo do lançamento contábil."]

  /** The Vendas descriptions have the length their table themes take. */
  lemma VendasTextsFit()
    ensures |VendasClientesTexts| == 8 && |VendasProdutosTexts| == 7 && |VendasLojasTexts| == 6 && |VendasCalendarioTexts| == 8 && |VendasVendasTexts| == 8
  {
  }

  /** The Recursos Humanos descriptions have the length their table themes take. */
  lemma RecursosHumanosTextsFit()
    ensures |RecursosHumanosColaboradoresTexts| == 7
  {
  }

  /** The Finanças descriptions have the length their table themes take. */
  lemma FinancasTextsFit()
    ensures |FinancasPlanoContasTexts| == 5 && |FinancasLancamentosContabeisTexts| == 7
  {
  }

  /** The script's descriptions, table theme by table theme in dictionary order. */
  const DictionaryTexts: seq<seq<string>> := [
    VendasClientesTexts, VendasProdutosTexts, VendasLojasTexts, VendasCalendarioTexts, VendasVendasTexts,
    RecursosHumanosColaboradoresTexts, FinancasPlanoContasTexts, FinancasLancamentosContabeisTexts]

  /** The script's own descriptions have the dictionary's shape, so `RunSeed` applies to them. */
  lemma DictionaryTextsFit()
    ensures Fits(DictionaryTexts)
  {
  }
}
