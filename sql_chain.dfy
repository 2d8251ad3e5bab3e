/**
 * The SQL retrieval chain and the master chain of the logistics chatbot:
 * the LIMIT safety rewrite applied to generated SQL, the executor that turns
 * database failures into an error text, the ordered topic branch and the
 * three branches it chooses between. The language models, the prompts and
 * the database are oracle parameters.
 */
module SqlRagChain {
  import opened Wrappers
  import opened Text
  import opened ChatReply

  const LimitSuffix := " LIMIT 100;"

  /** A query the safety rewrite applies to: a SELECT with no "limit" anywhere. */
  predicate IsUnlimitedSelect(query: string) {
    StartsWith(Strip(Lower(query)), "select") && !Contains(Lower(query), "limit")
  }

  /** The stripped query without one trailing ';', followed by " LIMIT 100;". */
  function WithLimit(query: string): string {
    var t := Strip(query);
    (if EndsWith(t, ";") then t[..|t| - 1] else t) + LimitSuffix
  }

  /** The query execute_sql_query actually sends to the database. */
  function PrepareQuery(query: string): (r: string)
    ensures IsUnlimitedSelect(query) ==> EndsWith(r, LimitSuffix)
    ensures !IsUnlimitedSelect(query) ==> r == query
  {
    if IsUnlimitedSelect(query) then WithLimit(query) else query
  }

  lemma LowerLimitSuffix()
    ensures Lower(LimitSuffix) == " limit 100;"
    ensures Contains(Lower(LimitSuffix), "limit")
  {
    assert Lower(LimitSuffix)[1..6] == "limit";
    ContainsAt(Lower(LimitSuffix), "limit", 1);
  }

  /** The lowered rewrite of any text contains "limit". */
  lemma WithLimitHasLimit(query: string)
    ensures Contains(Lower(WithLimit(query)), "limit")
  {
    var t := Strip(query);
    var base := if EndsWith(t, ";") then t[..|t| - 1] else t;
    LowerAppend(base, LimitSuffix);
    LowerLimitSuffix();
    ContainsInSuffix(Lower(base), Lower(LimitSuffix), "limit");
  }

  /** The query changes exactly when it is a SELECT without "limit". */
  lemma PrepareQueryChangesIff(query: string)
    ensures PrepareQuery(query) != query <==> IsUnlimitedSelect(query)
  {
    if IsUnlimitedSelect(query) {
      WithLimitHasLimit(query);
    }
  }

  /** After preparation, any SELECT carries "limit" (case-insensitively). */
  lemma PreparedSelectIsLimited(query: string)
    requires StartsWith(Strip(Lower(query)), "select")
    ensures Contains(Lower(PrepareQuery(query)), "limit")
  {
    if IsUnlimitedSelect(query) {
      WithLimitHasLimit(query);
    }
  }

  /** Preparing a prepared query changes nothing. */
  lemma PrepareQueryIdempotent(query: string)
    ensures PrepareQuery(PrepareQuery(query)) == PrepareQuery(query)
  {
    if IsUnlimitedSelect(query) {
      WithLimitHasLimit(query);
    }
  }

  /**
   * The injected form: the stripped query, with one trailing ';' removed when
   * it has one, followed by " LIMIT 100;".
   */
  lemma InjectedShape(query: string)
    requires IsUnlimitedSelect(query)
    ensures var r := PrepareQuery(query);
      var base := r[..|r| - |LimitSuffix|];
      r == base + LimitSuffix
      && (if EndsWith(Strip(query), ";") then base + ";" == Strip(query) else base == Strip(query))
  {
    assert PrepareQuery(query) == WithLimit(query);
    WithLimitShape(query);
  }

  lemma WithLimitShape(query: string)
    ensures var r := WithLimit(query);
      var base := r[..|r| - |LimitSuffix|];
      r == base + LimitSuffix
      && (if EndsWith(Strip(query), ";") then base + ";" == Strip(query) else base == Strip(query))
  {
    var r := WithLimit(query);
    var t := Strip(query);
    var base := if EndsWith(t, ";") then t[..|t| - 1] else t;
    assert r[..|r| - |LimitSuffix|] == base;
    if EndsWith(t, ";") {
      assert base + ";" == t;
    }
  }

  /** The two halves of the rewrite's test, read off the lowered text. */
  lemma LoweredSelectUnlimited(lowered: string)
    requires StartsWith(lowered, "select") && !IsSpace(lowered[|lowered| - 1])
    requires NoPair(lowered, 'l', 'i')
    ensures StartsWith(Strip(lowered), "select") && !Contains(lowered, "limit")
  {
    StrippedSelect(lowered);
    NoLimitWithoutPair(lowered);
  }

  lemma NoLimitWithoutPair(lowered: string)
    requires NoPair(lowered, 'l', 'i')
    ensures !Contains(lowered, "limit")
  {
    var p := "limit";
    assert p[0] == 'l' && p[1] == 'i';
    NoPairNotContains(lowered, p);
  }

  lemma StrippedSelect(lowered: string)
    requires StartsWith(lowered, "select") && !IsSpace(lowered[|lowered| - 1])
    ensures StartsWith(Strip(lowered), "select")
  {
    assert lowered[0] == 's' by {
      assert lowered[..6] == "select";
      assert lowered[0] == lowered[..6][0];
    }
    StripUnchanged(lowered);
  }

  /** Sufficient conditions, on the lowered text, for the rewrite to apply. */
  lemma UnlimitedSelectWhen(query: string, lowered: string)
    requires lowered == Lower(query)
    requires StartsWith(lowered, "select") && !IsSpace(lowered[|lowered| - 1])
    requires NoPair(lowered, 'l', 'i')
    ensures IsUnlimitedSelect(query)
  {
    LoweredSelectUnlimited(lowered);
  }

  /** A query whose lowered text starts with a letter other than 's' is not a SELECT. */
  lemma NotSelectWhen(query: string, lowered: string)
    requires lowered == Lower(query)
    requires lowered != [] && !IsSpace(lowered[0]) && lowered[0] != 's'
    ensures PrepareQuery(query) == query
  {
    StripKeepsFirst(lowered);
    assert Strip(Lower(query))[0] != "select"[0];
    assert !StartsWith(Strip(Lower(query)), "select");
  }

  /** The rewrite of a text with no surrounding whitespace. */
  lemma WithLimitUnstripped(query: string)
    requires query != [] && !IsSpace(query[0]) && !IsSpace(query[|query| - 1])
    ensures WithLimit(query)
      == (if query[|query| - 1] == ';' then query[..|query| - 1] else query) + LimitSuffix
  {
    StripUnchanged(query);
  }

  /** The rewrite of a qualifying query with no surrounding whitespace. */
  lemma RewriteWhen(query: string)
    requires IsUnlimitedSelect(query)
    requires query != [] && !IsSpace(query[0]) && !IsSpace(query[|query| - 1])
    ensures PrepareQuery(query)
      == (if query[|query| - 1] == ';' then query[..|query| - 1] else query) + LimitSuffix
  {
    WithLimitUnstripped(query);
  }

  lemma LowerDoubleSemicolon(q: string)
    requires q == "SELECT 1;;"
    ensures Lower(q) == "select 1;;"
  {
  }

  lemma DoubleSemicolonQualifies(q: string)
    requires q == "SELECT 1;;"
    ensures IsUnlimitedSelect(q)
  {
    var l := "select 1;;";
    LowerDoubleSemicolon(q);
    assert StartsWith(l, "select");
    NoPairByIndex(l, 'l', 'i');
    UnlimitedSelectWhen(q, l);
  }

  lemma DoubleSemicolonRewritten(q: string)
    requires q == "SELECT 1;;"
    ensures q[..|q| - 1] + LimitSuffix == "SELECT 1; LIMIT 100;"
  {
  }

  /** Only one of several trailing semicolons is removed. */
  lemma ExampleDoubleSemicolon(q: string)
    requires q == "SELECT 1;;"
    ensures PrepareQuery(q) == "SELECT 1; LIMIT 100;"
  {
    DoubleSemicolonQualifies(q);
    assert q[0] == 'S' && q[|q| - 1] == ';';
    RewriteWhen(q);
    DoubleSemicolonRewritten(q);
  }

  /** "limit" inside an identifier also suppresses the rewrite. */
  lemma ExampleLimitInIdentifier(q: string)
    requires q == "SELECT limite FROM t"
    ensures PrepareQuery(q) == q
  {
    assert Lower(q)[7..12] == "limit";
    ContainsAt(Lower(q), "limit", 7);
  }

  /** Statements other than SELECT pass through. */
  lemma ExampleUpdateUntouched(q: string)
    requires q == "UPDATE clientes SET nome = 'x'"
    ensures PrepareQuery(q) == q
  {
    assert q[0] == 'U';
    NotSelectWhen(q, Lower(q));
  }

  /** First half of the first few-shot query of the SQL prompt. */
  const CountHead := "SELECT count(*) FROM operacoes_"
  const CountTail := "logisticas WHERE status = 'CANCELADO';"

  lemma LowerCountHead(head: string)
    requires head == CountHead
    ensures Lower(head) == "select count(*) from operacoes_"
  {
  }

  lemma LowerCountTail(tail: string)
    requires tail == CountTail
    ensures Lower(tail) == "logisticas where status = 'cancelado';"
  {
  }

  lemma CountHeadNoPair(lh: string)
    requires lh == "select count(*) from operacoes_"
    ensures NoPair(lh, 'l', 'i') && lh[|lh| - 1] == '_'
  {
    assert forall i :: 0 <= i < |lh| - 1 ==> lh[i] != 'l' || lh[i + 1] != 'i';
    NoPairByIndex(lh, 'l', 'i');
  }

  lemma CountTailNoPair(lt: string)
    requires lt == "logisticas where status = 'cancelado';"
    ensures NoPair(lt, 'l', 'i')
  {
    assert forall i :: 0 <= i < |lt| - 1 ==> lt[i] != 'l' || lt[i + 1] != 'i';
    NoPairByIndex(lt, 'l', 'i');
  }

  lemma CountPartsNoPair(lh: string, lt: string)
    requires lh == "select count(*) from operacoes_"
    requires lt == "logisticas where status = 'cancelado';"
    ensures NoPair(lh + lt, 'l', 'i')
  {
    CountHeadNoPair(lh);
    CountTailNoPair(lt);
    NoPairAppend(lh, lt, 'l', 'i');
  }

  lemma AggregateQualifies(head: string, tail: string)
    requires head == CountHead && tail == CountTail
    ensures IsUnlimitedSelect(head + tail)
  {
    var lh := "select count(*) from operacoes_";
    var lt := "logisticas where status = 'cancelado';";
    LowerCountHead(head);
    LowerCountTail(tail);
    LowerAppend(head, tail);
    CountPartsNoPair(lh, lt);
    var l := lh + lt;
    assert l[..6] == lh[..6] == "select";
    assert l[|l| - 1] == ';';
    UnlimitedSelectWhen(head + tail, l);
  }

  lemma DropLastOfConcat(a: string, b: string)
    requires b != []
    ensures (a + b)[..|a + b| - 1] == a + b[..|b| - 1]
  {
  }

  /** A bare aggregate is not exempt: the few-shot counting query gets the suffix too. */
  lemma ExampleAggregateLimited(head: string, tail: string)
    requires head == CountHead && tail == CountTail
    ensures PrepareQuery(head + tail) == head + tail[..|tail| - 1] + LimitSuffix
  {
    var q := head + tail;
    AggregateQualifies(head, tail);
    assert head[0] == 'S' && tail[|tail| - 1] == ';';
    assert q[0] == head[0] && q[|q| - 1] == tail[|tail| - 1];
    RewriteWhen(q);
    DropLastOfConcat(head, tail);
  }

  const TopFreightHead := "SELECT uf_destino, SUM(valor_frete) "
  const TopFreightMiddle := "AS valor_total_frete FROM operacoes_"
  const TopFreightGroup := "logisticas GROUP BY uf_destino "
  const TopFreightTail := "ORDER BY valor_total_frete DESC LIMIT 5;"

  /** The few-shot ranking query already has its own LIMIT 5 and is sent as written. */
  lemma ExampleOwnLimitKept(front: string, tail: string)
    requires front == TopFreightHead + TopFreightMiddle + TopFreightGroup
    requires tail == TopFreightTail
    ensures PrepareQuery(front + tail) == front + tail
  {
    LowerAppend(front, tail);
    var lt := Lower(tail);
    assert lt[32..37] == "limit";
    ContainsAt(lt, "limit", 32);
    ContainsInSuffix(Lower(front), lt, "limit");
  }

  /** What the database connection answers for one query: its rendered rows, or the exception. */
  datatype DbResult = Rows(output: string) | Raised(cause: string)

  const ErrorPrefix := "Erro: A query falhou. Causa: "
  const ErrorSuffix := ". Tente reformular a pergunta."

  function ErrorText(cause: string): (r: string)
    ensures |r| == |ErrorPrefix| + |cause| + |ErrorSuffix|
    ensures StartsWith(r, ErrorPrefix) && EndsWith(r, ErrorSuffix)
  {
    var r := ErrorPrefix + cause + ErrorSuffix;
    assert r[..|ErrorPrefix|] == ErrorPrefix;
    r
  }

  /** The cause inside an error text. */
  function ErrorCause(text: string): string
    requires |text| >= |ErrorPrefix| + |ErrorSuffix|
  {
    text[|ErrorPrefix|..|text| - |ErrorSuffix|]
  }

  /** The cause can be read back from the error text. */
  lemma ErrorCauseRoundTrip(cause: string)
    ensures ErrorCause(ErrorText(cause)) == cause
  {
    var r := ErrorText(cause);
    assert r == ErrorPrefix + cause + ErrorSuffix;
    assert r[|ErrorPrefix|..|r| - |ErrorSuffix|] == cause;
  }

  /**
   * execute_sql_query: prepare the query, run it, and return the database
   * output unchanged, or the error text for the exception it raised.
   */
  function ExecuteSqlQuery(query: string, db: string -> DbResult): (r: string)
    ensures var result := db(PrepareQuery(query));
      (result.Rows? ==> r == result.output)
      && (result.Raised? ==> StartsWith(r, ErrorPrefix) && EndsWith(r, ErrorSuffix))
  {
    var result := db(PrepareQuery(query));
    if result.Rows? then result.output else ErrorText(result.cause)
  }

  /** The error text names the cause, and the cause can be read back from it. */
  lemma ExecuteErrorNamesCause(query: string, db: string -> DbResult)
    requires db(PrepareQuery(query)).Raised?
    ensures var r := ExecuteSqlQuery(query, db);
      |r| >= |ErrorPrefix| + |ErrorSuffix| && ErrorCause(r) == db(PrepareQuery(query)).cause
  {
    ErrorCauseRoundTrip(db(PrepareQuery(query)).cause);
  }

  const DatabaseLabel := "consulta_ao_banco_de_dados"
  const ChatLabel := "saudacao_ou_conversa_simples"

  datatype Route = SqlBranch | SimpleChatBranch | FallbackBranch

  /** The master chain's branch: ordered, case-sensitive substring tests on the router's label. */
  function RouteTopic(topic: string): (r: Route)
    ensures r == SqlBranch <==> Contains(topic, DatabaseLabel)
    ensures r == SimpleChatBranch <==> !Contains(topic, DatabaseLabel) && Contains(topic, ChatLabel)
    ensures r == FallbackBranch <==> !Contains(topic, DatabaseLabel) && !Contains(topic, ChatLabel)
  {
    if Contains(topic, DatabaseLabel) then SqlBranch
    else if Contains(topic, ChatLabel) then SimpleChatBranch
    else FallbackBranch
  }

  /** A label naming both topics goes to the SQL chain: the first test wins. */
  lemma ExampleBothLabels()
    ensures RouteTopic(ChatLabel + " " + DatabaseLabel) == SqlBranch
  {
    ContainsAt(DatabaseLabel, DatabaseLabel, 0);
    ContainsInSuffix(ChatLabel + " ", DatabaseLabel, DatabaseLabel);
  }

  lemma UpperCaseLabelLacksDatabase(t: string)
    requires t == "CONSULTA_AO_BANCO_DE_DADOS"
    ensures !Contains(t, DatabaseLabel)
  {
    assert DatabaseLabel[0] == 'c';
    CharAbsentNotContains(t, DatabaseLabel);
  }

  lemma UpperCaseLabelLacksChat(t: string)
    requires t == "CONSULTA_AO_BANCO_DE_DADOS"
    ensures !Contains(t, ChatLabel)
  {
    assert ChatLabel[0] == 's';
    CharAbsentNotContains(t, ChatLabel);
  }

  /** The tests are case-sensitive: an upper-case label falls through to the fallback. */
  lemma ExampleUpperCaseLabel(t: string)
    requires t == "CONSULTA_AO_BANCO_DE_DADOS"
    ensures RouteTopic(t) == FallbackBranch
  {
    UpperCaseLabelLacksDatabase(t);
    UpperCaseLabelLacksChat(t);
  }

  const FallbackText := "Desculpe, não entendi sua pergunta. Posso ajudar com dados sobre logística ou responder a saudações."

  /**
   * The steps the chains delegate: the router and chat models (None when the
   * prompt cannot be rendered or the call raises), the SQL generator given the
   * question and the schema text, the database, and the final-answer model
   * given the query result and the question, whose output the JSON parser
   * turns into a value.
   */
  datatype Oracles = Oracles(
    router: string -> Option<string>,
    chat: string -> Option<string>,
    generateSql: (string, string) -> Option<string>,
    db: string -> DbResult,
    answer: (string, string) -> Option<Json>)

  /** The outcome of one invocation: the reply (None when an exception escaped) and the queries sent to the database. */
  datatype ChainRun = ChainRun(reply: Option<Json>, executed: seq<string>)

  /** simple_chat_chain: the chat model's text wrapped as a text reply. */
  function SimpleChat(question: string, o: Oracles): (r: Option<Json>)
    ensures o.chat(question).Some? <==> r.Some?
    ensures r.Some? ==> TextContent(r.value) == o.chat(question)
  {
    match o.chat(question)
    case None => None
    case Some(text) =>
      TextReplyContent(text);
      Some(TextReply(text))
  }

  /** The SQL chain: generate SQL from the question and schema, execute it, and let the answer model phrase the result. */
  function SqlChain(question: string, schema: string, o: Oracles): (r: ChainRun)
    ensures |r.executed| <= 1
    ensures o.generateSql(question, schema).None? ==> r == ChainRun(None, [])
    ensures o.generateSql(question, schema).Some? ==>
      var sql := o.generateSql(question, schema).value;
      r.executed == [PrepareQuery(sql)]
      && r.reply == o.answer(ExecuteSqlQuery(sql, o.db), question)
  {
    match o.generateSql(question, schema)
    case None => ChainRun(None, [])
    case Some(sql) => ChainRun(o.answer(ExecuteSqlQuery(sql, o.db), question), [PrepareQuery(sql)])
  }

  /** The master chain: classify the question, then run the branch the label selects. */
  function MasterChain(question: string, schema: string, o: Oracles): (r: ChainRun)
    ensures o.router(question).None? ==> r == ChainRun(None, [])
    ensures r.executed != [] ==> o.router(question).Some? && RouteTopic(o.router(question).value) == SqlBranch
  {
    match o.router(question)
    case None => ChainRun(None, [])
    case Some(topic) =>
      match RouteTopic(topic)
      case SqlBranch => SqlChain(question, schema, o)
      case SimpleChatBranch => ChainRun(SimpleChat(question, o), [])
      case FallbackBranch => ChainRun(Some(TextReply(FallbackText)), [])
  }

  /** The fallback reply is the same fixed text for every question and never touches the database. */
  lemma FallbackIsFixed(question: string, schema: string, o: Oracles)
    requires o.router(question).Some? && RouteTopic(o.router(question).value) == FallbackBranch
    ensures MasterChain(question, schema, o) == ChainRun(Some(TextReply(FallbackText)), [])
    ensures TextContent(MasterChain(question, schema, o).reply.value) == Some(FallbackText)
  {
    TextReplyContent(FallbackText);
  }

  /** Simple chat answers with the chat model's text and runs no query. */
  lemma SimpleChatReply(question: string, schema: string, o: Oracles)
    requires o.router(question).Some? && RouteTopic(o.router(question).value) == SimpleChatBranch
    ensures MasterChain(question, schema, o).executed == []
    ensures o.chat(question).Some? ==>
      TextContent(MasterChain(question, schema, o).reply.value) == o.chat(question)
  {
  }

  /** Every SELECT the chatbot sends to the database carries a limit. */
  lemma ExecutedSelectsAreLimited(question: string, schema: string, o: Oracles)
    ensures forall q :: q in MasterChain(question, schema, o).executed ==>
      StartsWith(Strip(Lower(q)), "select") ==> Contains(Lower(q), "limit")
  {
    var r := MasterChain(question, schema, o);
    if r.executed != [] {
      var sql := o.generateSql(question, schema).value;
      assert r.executed == [PrepareQuery(sql)];
      if !IsUnlimitedSelect(sql) {
        assert PrepareQuery(sql) == sql;
      } else {
        WithLimitHasLimit(sql);
      }
    }
  }

  /** On the SQL branch the answer model sees the executor's output, error text included. */
  lemma SqlBranchAnswersFromResult(question: string, schema: string, o: Oracles)
    requires o.router(question).Some? && RouteTopic(o.router(question).value) == SqlBranch
    requires o.generateSql(question, schema).Some?
    ensures var sql := o.generateSql(question, schema).value;
      MasterChain(question, schema, o)
        == ChainRun(o.answer(ExecuteSqlQuery(sql, o.db), question), [PrepareQuery(sql)])
  {
  }
}
