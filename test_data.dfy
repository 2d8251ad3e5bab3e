/**
 * The synthetic logistics data of db_scripts/popular_tabelas.py: the client rows and
 * their serial ids, the per-operation construction rules, and the tab-separated text
 * handed to COPY. Every random or Faker draw is a parameter, already in the range the
 * library guarantees.
 */
module TestData {
  import opened Wrappers
  import opened Text

  const NumeroDeClientes: nat := 120
  const NumeroDeOperacoes: nat := 250000

  /** A (city, state) pair of LOCAIS_BRASIL. */
  datatype Place = Place(cidade: string, uf: string)

  /** The module-level option lists the generator draws from. */
  datatype Choices = Choices(
    locais: seq<Place>,
    tipos: seq<string>,
    status: seq<string>,
    naturezas: seq<string>,
    observacoes: seq<Option<string>>)

  const LocaisBrasil: seq<Place> := [
    Place("São Paulo", "SP"), Place("Rio de Janeiro", "RJ"), Place("Belo Horizonte", "MG"),
    Place("Curitiba", "PR"), Place("Porto Alegre", "RS"), Place("Salvador", "BA"),
    Place("Recife", "PE"), Place("Fortaleza", "CE"), Place("Brasília", "DF"),
    Place("Manaus", "AM"), Place("Goiânia", "GO"), Place("Belém", "PA"),
    Place("Campinas", "SP"), Place("Santos", "SP"), Place("Uberlândia", "MG"),
    Place("Joinville", "SC"), Place("Caxias do Sul", "RS"), Place("Vitória", "ES")]

  const Opcoes: Choices := Choices(
    LocaisBrasil,
    ["TRANSPORTE", "ARMAZENAGEM"],
    ["SOLICITADO", "AGUARDANDO_COLETA", "EM_TRANSITO", "ARMAZENADO", "ENTREGUE", "CANCELADO"],
    ["Eletrônicos", "Peças Automotivas", "Alimentos Não Perecíveis", "Têxteis", "Cosméticos",
     "Móveis", "Farmacêuticos"],
    [Some("Entregar em horário comercial."), Some("Cuidado: Carga frágil."),
     Some("Deixar na portaria com o Sr. {nome}."), Some("Agendar entrega por telefone."),
     Some("Urgente. Prioridade máxima."), Some("Verificar documentação no ato da entrega."),
     None, None, None])

  /** The COPY column list, in the order of the operation tuple. */
  const Colunas: seq<string> := [
    "codigo_operacao", "tipo", "status", "cliente_id", "data_emissao", "data_previsao_entrega",
    "data_entrega_realizada", "uf_coleta", "cidade_coleta", "uf_destino", "cidade_destino",
    "peso_kg", "quantidade_volumes", "valor_mercadoria", "natureza_carga", "valor_frete",
    "valor_seguro", "codigo_rastreio", "observacoes"]

  // ---------------------------------------------------------------- clients

  datatype Client = Client(nome: string, documento: string, email: string, telefone: string)

  /** One turn of the client loop: the PJ/PF pick and what Faker returned. */
  datatype ClientDraw = ClientDraw(pj: bool, nome: string, documento: string, telefone: string,
                                   emailDomain: string)

  /** nome.lower().replace(' ', '').replace(',', '')[:15] */
  function CompanyMailbox(nome: string): (r: string)
    ensures |r| <= 15 && ' ' !in r && ',' !in r
  {
    var s := RemoveChar(RemoveChar(Lower(nome), ' '), ',');
    if |s| <= 15 then s else s[..15]
  }

  /** The client tuple built from one draw; only the e-mail is derived. */
  function MakeClient(d: ClientDraw): (c: Client)
    ensures c.nome == d.nome && c.documento == d.documento && c.telefone == d.telefone
  {
    var email :=
      if d.pj then "contato@" + CompanyMailbox(d.nome) + ".com"
      else ReplaceChar(Lower(d.nome), ' ', '.') + "@" + d.emailDomain;
    Client(d.nome, d.documento, email, d.telefone)
  }

  /**
   * A company's address is contato@ followed by at most 15 characters without
   * spaces or commas and .com; a person's address is the lower-cased name with
   * dots for spaces, then @ and the drawn domain.
   */
  lemma ClientEmail(d: ClientDraw)
    ensures d.pj ==>
      var e := MakeClient(d).email;
      StartsWith(e, "contato@") && EndsWith(e, ".com") && 12 <= |e| <= 27
      && ' ' !in e[8..|e| - 4] && ',' !in e[8..|e| - 4]
    ensures !d.pj ==>
      var e := MakeClient(d).email;
      var local := e[..|d.nome|];
      |e| == |d.nome| + 1 + |d.emailDomain| && e[|d.nome|] == '@'
      && ' ' !in local && |local| == |d.nome|
      && forall k :: 0 <= k < |d.nome| ==>
           local[k] == if d.nome[k] == ' ' then '.' else LowerChar(d.nome[k])
  {
    if d.pj {
      var m := CompanyMailbox(d.nome);
      var e := MakeClient(d).email;
      assert e == "contato@" + m + ".com";
      assert e[..8] == "contato@";
      assert e[|e| - 4..] == ".com";
      assert e[8..|e| - 4] == m;
    } else {
      var e := MakeClient(d).email;
      var l := ReplaceChar(Lower(d.nome), ' ', '.');
      assert e == l + "@" + d.emailDomain;
      assert e[..|d.nome|] == l;
    }
  }

  /** The generated client tuples, one per draw. */
  function Clients(draws: seq<ClientDraw>): (r: seq<Client>)
    ensures |r| == |draws| && forall k :: 0 <= k < |draws| ==> r[k] == MakeClient(draws[k])
  {
    seq(|draws|, k requires 0 <= k < |draws| => MakeClient(draws[k]))
  }

  /** The client generation loop appends one tuple per draw, in draw order. */
  method GenerateClients(draws: seq<ClientDraw>) returns (clients: seq<Client>)
    ensures clients == Clients(draws)
  {
    clients := [];
    for k := 0 to |draws|
      invariant clients == Clients(draws[..k])
    {
      assert draws[..k + 1] == draws[..k] + [draws[k]];
      clients := clients + [MakeClient(draws[k])];
    }
    assert draws[..|draws|] == draws;
  }

  /** The ids start, start + 1, ..., start + n - 1. */
  function Serial(start: int, n: nat): (r: seq<int>)
    ensures |r| == n && forall k :: 0 <= k < n ==> r[k] == start + k
  {
    seq(n, k requires 0 <= k < n => start + k)
  }

  /** Serial ids are pairwise distinct. */
  lemma SerialDistinct(start: int, n: nat)
    ensures forall a, b :: 0 <= a < b < n ==> Serial(start, n)[a] != Serial(start, n)[b]
  {
  }

  /** The clientes table: its rows and the identity sequence behind RETURNING id. */
  class ClientTable {
    var rows: seq<Client>
    var nextId: int

    constructor()
      ensures rows == [] && nextId == 1
    {
      rows := [];
      nextId := 1;
    }

    /** TRUNCATE TABLE clientes RESTART IDENTITY CASCADE */
    method Truncate()
      modifies this
      ensures rows == [] && nextId == 1
    {
      rows := [];
      nextId := 1;
    }

    /** INSERT ... RETURNING id: the row is appended and takes the next identity value. */
    method Insert(c: Client) returns (id: int)
      modifies this
      ensures rows == old(rows) + [c] && nextId == old(nextId) + 1 && id == old(nextId)
    {
      id := nextId;
      rows := rows + [c];
      nextId := nextId + 1;
    }
  }

  /** The insert loop: id_clientes receives one id per client, in insertion order. */
  method InsertClients(table: ClientTable, clients: seq<Client>) returns (ids: seq<int>)
    modifies table
    ensures table.rows == old(table.rows) + clients
    ensures table.nextId == old(table.nextId) + |clients|
    ensures ids == Serial(old(table.nextId), |clients|)
  {
    ids := [];
    for k := 0 to |clients|
      invariant table.rows == old(table.rows) + clients[..k]
      invariant table.nextId == old(table.nextId) + k
      invariant ids == Serial(old(table.nextId), k)
    {
      var id := table.Insert(clients[k]);
      assert clients[..k + 1] == clients[..k] + [clients[k]];
      ids := ids + [id];
    }
    assert clients[..|clients|] == clients;
  }

  // ------------------------------------------------------------- operations

  /**
   * A datetime as str() shows it: its day number, whose rendering as YYYY-MM-DD
   * is a parameter, and its time of day as HH:MM:SS (with .ffffff when the
   * microseconds are not zero).
   */
  datatype DateTime = DateTime(day: int, clock: string)

  /** data_emissao, the datetime Faker draws, with its calendar year. */
  datatype Instant = Instant(year: nat, day: int, clock: string)

  /** str() of a datetime: the date, a space, then the time of day. */
  function ShowDateTime(showDate: int -> string, day: int, clock: string): string {
    showDate(day) + " " + clock
  }

  /** One turn of the operation loop: every random and Faker draw it makes. */
  datatype OperationDraw = OperationDraw(
    cliente: nat, origem: nat, destino: nat, status: nat, emissao: Instant,
    prazo: int, atraso: int, tipo: nat, peso: string, volumes: int,
    valorMercadoria: string, natureza: nat, valorFrete: string, valorSeguro: string,
    rastreio: string, observacao: nat, primeiroNome: string)

  datatype Operation = Operation(
    codigo: string, tipo: string, status: string, clienteId: int,
    emissao: Instant, previsao: int, entregaRealizada: Option<DateTime>,
    ufColeta: string, cidadeColeta: string, ufDestino: string, cidadeDestino: string,
    peso: string, volumes: int, valorMercadoria: string, natureza: string,
    valorFrete: string, valorSeguro: string, rastreio: string, observacao: Option<string>)

  /** [loc for loc in locais if loc != o] */
  function Without(locais: seq<Place>, o: Place): (r: seq<Place>)
    ensures |r| <= |locais|
    ensures forall x :: x in r <==> x in locais && x != o
    decreases |locais|
  {
    if locais == [] then []
    else (if locais[0] == o then [] else [locais[0]]) + Without(locais[1..], o)
  }

  /** Two different places leave a destination for every origin. */
  lemma DestinationsExist(locais: seq<Place>, o: Place)
    requires |locais| >= 2 && locais[0] != locais[1]
    ensures |Without(locais, o)| > 0
  {
    if locais[0] != o {
      assert locais[0] in Without(locais, o);
    } else {
      assert locais[1] in Without(locais, o);
    }
  }

  /** LOCAIS_BRASIL always leaves a destination. */
  lemma LocaisLeaveDestination(o: Place)
    ensures |Without(Opcoes.locais, o)| > 0
  {
    DestinationsExist(LocaisBrasil, o);
  }

  /** Every index the draw holds is within its list, and the day offsets are in randint's range. */
  predicate InRange(d: OperationDraw, c: Choices, clientes: nat) {
    d.cliente < clientes && d.origem < |c.locais|
    && d.destino < |Without(c.locais, c.locais[d.origem])|
    && d.status < |c.status| && d.tipo < |c.tipos| && d.natureza < |c.naturezas|
    && d.observacao < |c.observacoes|
    && 2 <= d.prazo <= 15 && -2 <= d.atraso <= 1
  }

  /** In a digit string followed by a dash, the first dash sits right after the digits. */
  lemma FirstDashAfterDigits(a: string, b: string)
    requires AllDigits(a)
    ensures '-' in a + "-" + b && IndexOf(a + "-" + b, '-') == |a|
  {
    var s := a + "-" + b;
    assert s[|a|] == '-';
    assert forall k :: 0 <= k < |a| ==> s[k] == a[k] && s[k] != '-';
    IndexOfFirst(s, '-', |a|);
  }

  /** Digit strings end at the first dash, so the two halves are recovered. */
  lemma DigitsDashSplit(a: string, b: string, c: string, d: string)
    requires AllDigits(a) && AllDigits(c)
    requires a + "-" + b == c + "-" + d
    ensures a == c && b == d
  {
    var s := a + "-" + b;
    FirstDashAfterDigits(a, b);
    FirstDashAfterDigits(c, d);
    assert a == s[..|a|];
    assert c == s[..|c|];
    assert b == s[|a| + 1..];
    assert d == s[|c| + 1..];
  }

  /** Equal renderings come from equal numbers. */
  lemma NatToStringInjective(a: nat, b: nat)
    requires NatToString(a) == NatToString(b)
    ensures a == b
  {
    NatToStringValue(a);
    NatToStringValue(b);
  }

  /** The part of a code after "OP-". */
  function CodigoTail(year: nat, i: nat): string {
    NatToString(year) + "-" + PadNat(i + 1, 6)
  }

  /** f"OP-{year}-{i+1:06d}" */
  function Codigo(year: nat, i: nat): string {
    "OP-" + CodigoTail(year, i)
  }

  /** An operation code determines both its year and its loop index. */
  lemma CodigoInjective(y1: nat, i: nat, y2: nat, j: nat)
    requires Codigo(y1, i) == Codigo(y2, j)
    ensures y1 == y2 && i == j
  {
    assert CodigoTail(y1, i) == Codigo(y1, i)[3..];
    assert CodigoTail(y2, j) == Codigo(y2, j)[3..];
    DigitsDashSplit(NatToString(y1), PadNat(i + 1, 6), NatToString(y2), PadNat(j + 1, 6));
    NatToStringInjective(y1, y2);
    PadNatInjective(i + 1, j + 1, 6);
  }

  /** Python's s.replace(p, repl): occurrences taken left to right, without overlap. */
  function ReplaceAll(s: string, p: string, repl: string): string
    requires p != []
    decreases |s|
  {
    if |s| < |p| then s
    else if s[..|p|] == p then repl + ReplaceAll(s[|p|..], p, repl)
    else [s[0]] + ReplaceAll(s[1..], p, repl)
  }

  /** Text without a brace is left as it is. */
  lemma {:induction false} ReplaceAllNoBrace(s: string, repl: string)
    requires '{' !in s
    ensures ReplaceAll(s, "{nome}", repl) == s
    decreases |s|
  {
    if |s| >= 6 {
      assert s[..6][0] == s[0];
      ReplaceAllNoBrace(s[1..], repl);
    }
  }

  /** One placeholder between brace-free text is replaced by the name. */
  lemma {:induction false} FillOne(a: string, b: string, nome: string)
    requires '{' !in a && '{' !in b
    ensures ReplaceAll(a + "{nome}" + b, "{nome}", nome) == a + nome + b
    decreases |a|
  {
    var s := a + "{nome}" + b;
    if a == [] {
      assert s[..6] == "{nome}";
      assert s[6..] == b;
      ReplaceAllNoBrace(b, nome);
    } else {
      assert s[..6][0] == s[0] == a[0];
      assert s[1..] == a[1..] + "{nome}" + b;
      FillOne(a[1..], b, nome);
    }
  }

  /** template.format(nome=...) if template and '{nome}' in template else template */
  function Observacao(t: Option<string>, nome: string): (r: Option<string>)
    ensures r.None? <==> t.None?
    ensures t.Some? && !Contains(t.value, "{nome}") ==> r == t
  {
    if t.Some? && t.value != "" && Contains(t.value, "{nome}") then
      Some(ReplaceAll(t.value, "{nome}", nome))
    else t
  }

  /** The porter template receives the drawn first name. */
  lemma PorterNote(nome: string)
    ensures Observacao(Some("Deixar na portaria com o Sr. {nome}."), nome)
         == Some("Deixar na portaria com o Sr. " + nome + ".")
  {
    var a := "Deixar na portaria com o Sr. ";
    var t := a + "{nome}" + ".";
    assert t == "Deixar na portaria com o Sr. {nome}.";
    ContainsAt(t, "{nome}", |a|);
    FillOne(a, ".", nome);
  }

  /**
   * One operation tuple: the destination is drawn among the places other than the
   * origin, the forecast is the issue's date plus prazo days (only the date is
   * kept), and only status ENTREGUE has a delivery: the forecast moved by atraso
   * days, still at the issue's time of day.
   */
  function MakeOperation(i: nat, d: OperationDraw, ids: seq<int>, c: Choices): (op: Operation)
    requires InRange(d, c, |ids|)
    ensures Place(op.cidadeDestino, op.ufDestino) != Place(op.cidadeColeta, op.ufColeta)
    ensures Place(op.cidadeColeta, op.ufColeta) in c.locais
    ensures Place(op.cidadeDestino, op.ufDestino) in c.locais
    ensures op.entregaRealizada.None? <==> op.status != "ENTREGUE"
    ensures 2 <= op.previsao - op.emissao.day <= 15
    ensures op.entregaRealizada.Some? ==>
      -2 <= op.entregaRealizada.value.day - op.previsao <= 1 && op.entregaRealizada.value.clock == op.emissao.clock
    ensures op.clienteId in ids && op.status in c.status && op.tipo in c.tipos
    ensures op.natureza in c.naturezas
    ensures op.codigo == Codigo(op.emissao.year, i)
  {
    var origem := c.locais[d.origem];
    var destinos := Without(c.locais, origem);
    var destino := destinos[d.destino];
    assert destino in destinos;
    var status := c.status[d.status];
    var previsao := d.emissao.day + d.prazo;
    var entrega := if status == "ENTREGUE" then Some(DateTime(previsao + d.atraso, d.emissao.clock)) else None;
    Operation(Codigo(d.emissao.year, i), c.tipos[d.tipo], status, ids[d.cliente], d.emissao,
              previsao, entrega, origem.uf, origem.cidade, destino.uf, destino.cidade,
              d.peso, d.volumes, d.valorMercadoria, c.naturezas[d.natureza],
              d.valorFrete, d.valorSeguro, Upper(d.rastreio),
              Observacao(c.observacoes[d.observacao], d.primeiroNome))
  }

  predicate AllInRange(draws: seq<OperationDraw>, c: Choices, clientes: nat) {
    forall k :: 0 <= k < |draws| ==> InRange(draws[k], c, clientes)
  }

  /** The operation list: the k-th draw builds the operation with loop index k. */
  function Operations(draws: seq<OperationDraw>, ids: seq<int>, c: Choices): (r: seq<Operation>)
    requires AllInRange(draws, c, |ids|)
    ensures |r| == |draws|
    ensures forall k :: 0 <= k < |draws| ==> r[k] == MakeOperation(k, draws[k], ids, c)
  {
    seq(|draws|, k requires 0 <= k < |draws| => MakeOperation(k, draws[k], ids, c))
  }

  /** No two generated operations share a code, whatever their years. */
  lemma CodesDistinct(draws: seq<OperationDraw>, ids: seq<int>, c: Choices)
    requires AllInRange(draws, c, |ids|)
    ensures var ops := Operations(draws, ids, c);
      forall a, b :: 0 <= a < b < |ops| ==> ops[a].codigo != ops[b].codigo
  {
    var ops := Operations(draws, ids, c);
    forall a, b | 0 <= a < b < |ops|
      ensures ops[a].codigo != ops[b].codigo
    {
      if ops[a].codigo == ops[b].codigo {
        CodigoInjective(ops[a].emissao.year, a, ops[b].emissao.year, b);
      }
    }
  }

  /** The in-memory generation loop appends one operation per draw. */
  method GenerateOperations(draws: seq<OperationDraw>, ids: seq<int>, c: Choices)
    returns (ops: seq<Operation>)
    requires AllInRange(draws, c, |ids|)
    ensures ops == Operations(draws, ids, c)
  {
    ghost var all := Operations(draws, ids, c);
    ops := [];
    for k := 0 to |draws|
      invariant ops == all[..k]
    {
      ops := ops + [MakeOperation(k, draws[k], ids, c)];
      assert all[..k + 1] == all[..k] + [all[k]];
    }
    assert all[..|draws|] == all;
  }

  // ------------------------------------------------------------------- COPY

  /**
   * str(v) for each tuple field, in Colunas order. The issue and delivery
   * datetimes show their time of day, the forecast (a date) does not; an
   * absent delivery date or note stays None.
   */
  function Fields(op: Operation, showDate: int -> string): (r: seq<Option<string>>)
    ensures |r| == 19
    ensures r[6].None? <==> op.entregaRealizada.None?
    ensures r[18] == op.observacao
    ensures forall k :: 0 <= k < 19 && k != 6 && k != 18 ==> r[k].Some?
  {
    [Some(op.codigo), Some(op.tipo), Some(op.status), Some(IntToString(op.clienteId)),
     Some(ShowDateTime(showDate, op.emissao.day, op.emissao.clock)), Some(showDate(op.previsao)),
     (match op.entregaRealizada
      case None => None
      case Some(at) => Some(ShowDateTime(showDate, at.day, at.clock))),
     Some(op.ufColeta), Some(op.cidadeColeta), Some(op.ufDestino), Some(op.cidadeDestino),
     Some(op.peso), Some(IntToString(op.volumes)), Some(op.valorMercadoria), Some(op.natureza),
     Some(op.valorFrete), Some(op.valorSeguro), Some(op.rastreio), op.observacao]
  }

  /** The tuple lines up with the COPY column list. */
  lemma FieldsMatchColumns(op: Operation, showDate: int -> string)
    ensures |Fields(op, showDate)| == |Colunas|
    ensures Colunas[6] == "data_entrega_realizada" && Colunas[18] == "observacoes"
  {
  }

  /**
   * The three date cells of a generated operation: the issue and the delivery
   * are written with the issue's time of day, the forecast as a bare date.
   */
  lemma DateCells(i: nat, d: OperationDraw, ids: seq<int>, c: Choices, showDate: int -> string)
    requires InRange(d, c, |ids|)
    ensures var op := MakeOperation(i, d, ids, c);
      var fs := Fields(op, showDate);
      fs[4] == Some(showDate(d.emissao.day) + " " + d.emissao.clock)
      && fs[5] == Some(showDate(d.emissao.day + d.prazo))
      && (op.status == "ENTREGUE" ==>
            fs[6] == Some(showDate(d.emissao.day + d.prazo + d.atraso) + " " + d.emissao.clock))
      && (op.status != "ENTREGUE" ==> fs[6] == None)
  {
  }

  /** One field as it is written: tabs become spaces and None becomes \N. */
  function Cell(v: Option<string>): (r: string)
    ensures '\t' !in r
  {
    match v
    case None => "\\N"
    case Some(s) => ReplaceChar(s, '\t', ' ')
  }

  predicate IsOctal(ch: char) {
    '0' <= ch <= '7'
  }

  function OctalValue(ch: char): nat
    requires IsOctal(ch)
  {
    ch as int - '0' as int
  }

  /** The value of a hexadecimal digit, or -1 for any other character. */
  function HexValue(ch: char): int {
    if '0' <= ch <= '9' then ch as int - '0' as int
    else if 'a' <= ch <= 'f' then ch as int - 'a' as int + 10
    else if 'A' <= ch <= 'F' then ch as int - 'A' as int + 10
    else -1
  }

  /** How many octal digits s starts with, at most three. */
  function OctalRun(s: string): (n: nat)
    ensures n <= 3 && n <= |s| && forall k :: 0 <= k < n ==> IsOctal(s[k])
    ensures n < 3 && n < |s| ==> !IsOctal(s[n])
  {
    if |s| == 0 || !IsOctal(s[0]) then 0
    else if |s| == 1 || !IsOctal(s[1]) then 1
    else if |s| == 2 || !IsOctal(s[2]) then 2
    else 3
  }

  /** The character a letter escape stands for: b, f, n, r, t and v; any other character stands for itself. */
  function EscapeLetter(e: char): char {
    match e
    case 'b' => 8 as char
    case 'f' => 12 as char
    case 'n' => '\n'
    case 'r' => '\r'
    case 't' => '\t'
    case 'v' => 11 as char
    case _ => e
  }

  /**
   * The escape that follows a backslash: the character it stands for and how
   * many characters it spans. One to three octal digits give a byte value,
   * x and one or two hex digits give one too (x without a hex digit is a
   * plain x), and any other character is a letter escape. Byte values are
   * taken as the character with that code.
   */
  function Escape(s: string): (r: (char, nat))
    requires |s| > 0
    ensures 1 <= r.1 <= |s|
  {
    if IsOctal(s[0]) then
      var n := OctalRun(s);
      var v := if n == 1 then OctalValue(s[0])
        else if n == 2 then OctalValue(s[0]) * 8 + OctalValue(s[1])
        else OctalValue(s[0]) * 64 + OctalValue(s[1]) * 8 + OctalValue(s[2]);
      ((v % 256) as char, n)
    else if s[0] == 'x' && |s| > 1 && HexValue(s[1]) >= 0 then
      if |s| > 2 && HexValue(s[2]) >= 0 then ((HexValue(s[1]) * 16 + HexValue(s[2])) as char, 3)
      else (HexValue(s[1]) as char, 2)
    else (EscapeLetter(s[0]), 1)
  }

  /**
   * The backslash decoding of COPY's text format on one field, read on its
   * own. In a whole line a backslash that ends a field escapes the character
   * after it: the tab that closes the field, or for the last field the
   * newline that ends the row, so that the row runs on into the next line.
   * Reading the cells one by one does not show either; this function drops
   * such a trailing backslash.
   */
  function Unescape(s: string): string
    decreases |s|
  {
    if s == [] then []
    else if s[0] != '\\' then [s[0]] + Unescape(s[1..])
    else if |s| == 1 then []
    else
      var e := Escape(s[1..]);
      [e.0] + Unescape(s[1 + e.1..])
  }

  /** Text without a backslash is read as it is. */
  lemma {:induction false} UnescapePlain(s: string)
    requires '\\' !in s
    ensures Unescape(s) == s
    decreases |s|
  {
    if s != [] {
      assert '\\' !in s[1..];
      UnescapePlain(s[1..]);
    }
  }

  /**
   * How COPY's text format reads one field back: exactly \N is NULL, any other
   * field is decoded.
   */
  function ReadCell(s: string): Option<string> {
    if s == "\\N" then None else Some(Unescape(s))
  }

  /**
   * A field round-trips when it holds no tab and no backslash. The script
   * escapes neither, so a tab becomes a space and a backslash starts an escape.
   */
  lemma CellRoundTrip(v: Option<string>)
    requires v.Some? ==> '\t' !in v.value && '\\' !in v.value
    ensures ReadCell(Cell(v)) == v
  {
    if v.Some? {
      assert ReplaceChar(v.value, '\t', ' ') == v.value;
      UnescapePlain(v.value);
    }
  }

  /** A Windows path is not read back: its backslash and t become one tab. */
  lemma ExampleBackslashPath()
    ensures ReadCell(Cell(Some("C:\\temp"))) == Some("C:\temp")
  {
    assert ReplaceChar("C:\\temp", '\t', ' ') == "C:\\temp";
    var s := "C:\\temp";
    assert s[2..][1..] == "temp";
    assert Escape("temp") == ('\t', 1);
    assert s[2..][2..] == "emp";
    assert Unescape("emp") == "emp" by {
      UnescapePlain("emp");
    }
    assert Unescape(s[2..]) == "\temp";
    assert Unescape(s) == "C:\temp";
  }

  function Cells(fields: seq<Option<string>>): (r: seq<string>)
    ensures |r| == |fields| && forall k :: 0 <= k < |fields| ==> r[k] == Cell(fields[k])
  {
    seq(|fields|, k requires 0 <= k < |fields| => Cell(fields[k]))
  }

  /** '\t'.join(...) over the cells, then the line break buffer.write adds. */
  function CopyLine(fields: seq<Option<string>>): string {
    Join(Cells(fields), "\t") + "\n"
  }

  /**
   * A line ends in its newline, and splitting the rest on tabs gives exactly the
   * cells, one per field.
   */
  lemma CopyLineSplits(fields: seq<Option<string>>)
    requires |fields| > 0
    ensures var line := CopyLine(fields);
      |line| > 0 && line[|line| - 1] == '\n'
      && SplitOn(line[..|line| - 1], '\t') == Cells(fields)
  {
    var cells := Cells(fields);
    var line := CopyLine(fields);
    assert line[..|line| - 1] == Join(cells, "\t");
    SplitJoin(cells, '\t');
  }

  /** An operation's line carries 19 tab-separated cells that read back as its fields. */
  lemma OperationLine(op: Operation, showDate: int -> string)
    requires forall k :: 0 <= k < 19 && Fields(op, showDate)[k].Some? ==>
      '\t' !in Fields(op, showDate)[k].value && '\\' !in Fields(op, showDate)[k].value
    ensures var fs := Fields(op, showDate);
      var line := CopyLine(fs);
      var parts := SplitOn(line[..|line| - 1], '\t');
      |parts| == 19 && forall k :: 0 <= k < 19 ==> ReadCell(parts[k]) == fs[k]
  {
    var fs := Fields(op, showDate);
    CopyLineSplits(fs);
    forall k | 0 <= k < 19
      ensures ReadCell(Cells(fs)[k]) == fs[k]
    {
      CellRoundTrip(fs[k]);
    }
  }

  /** The buffer contents after writing the given operations, one line each. */
  function CopyText(ops: seq<Operation>, showDate: int -> string): string
    decreases |ops|
  {
    if ops == [] then ""
    else CopyText(ops[..|ops| - 1], showDate) + CopyLine(Fields(ops[|ops| - 1], showDate))
  }

  predicate NoNewline(op: Operation, showDate: int -> string) {
    forall k :: 0 <= k < 19 && Fields(op, showDate)[k].Some? ==> '\n' !in Fields(op, showDate)[k].value
  }

  lemma {:induction false} CellsNoNewline(fields: seq<Option<string>>)
    requires forall k :: 0 <= k < |fields| && fields[k].Some? ==> '\n' !in fields[k].value
    ensures CountChar(Join(Cells(fields), "\t"), '\n') == 0
    decreases |fields|
  {
    var cells := Cells(fields);
    if |fields| > 0 {
      assert forall k :: 0 <= k < |cells| ==> '\n' !in cells[k];
      if |fields| > 1 {
        assert Cells(fields[1..]) == cells[1..];
        CellsNoNewline(fields[1..]);
        CountCharAppend(cells[0], "\t", '\n');
        CountCharAppend(cells[0] + "\t", Join(cells[1..], "\t"), '\n');
      }
      CountCharAbsent(cells[0], '\n');
      CountCharAbsent("\t", '\n');
    }
  }

  /** When no value holds a newline, the buffer has exactly one line per operation. */
  lemma {:induction false} OneLinePerOperation(ops: seq<Operation>, showDate: int -> string)
    requires forall k :: 0 <= k < |ops| ==> NoNewline(ops[k], showDate)
    ensures CountChar(CopyText(ops, showDate), '\n') == |ops|
    decreases |ops|
  {
    if ops != [] {
      var last := ops[|ops| - 1];
      var fs := Fields(last, showDate);
      OneLinePerOperation(ops[..|ops| - 1], showDate);
      CellsNoNewline(fs);
      CountCharAppend(Join(Cells(fs), "\t"), "\n", '\n');
      CountCharAppend(CopyText(ops[..|ops| - 1], showDate), CopyLine(fs), '\n');
    }
  }

  /** The buffer loop writes each operation's line in order. */
  method WriteBuffer(ops: seq<Operation>, showDate: int -> string) returns (buffer: string)
    ensures buffer == CopyText(ops, showDate)
  {
    buffer := "";
    for k := 0 to |ops|
      invariant buffer == CopyText(ops[..k], showDate)
    {
      assert ops[..k + 1][..k] == ops[..k];
      buffer := buffer + CopyLine(Fields(ops[k], showDate));
    }
    assert ops[..|ops|] == ops;
  }

  // -------------------------------------------------------------- the script

  /**
   * popular_banco: clear the clients, insert the 120 generated clients, build the
   * 250000 operations over their ids and write the COPY buffer.
   */
  method PopularBanco(table: ClientTable, clientDraws: seq<ClientDraw>,
                      opDraws: seq<OperationDraw>, showDate: int -> string)
    returns (buffer: string)
    requires |clientDraws| == NumeroDeClientes && |opDraws| == NumeroDeOperacoes
    requires AllInRange(opDraws, Opcoes, NumeroDeClientes)
    modifies table
    ensures table.rows == Clients(clientDraws) && table.nextId == NumeroDeClientes + 1
    ensures buffer == CopyText(Operations(opDraws, Serial(1, NumeroDeClientes), Opcoes), showDate)
  {
    table.Truncate();
    var clients := GenerateClients(clientDraws);
    var ids := InsertClients(table, clients);
    var ops := GenerateOperations(opDraws, ids, Opcoes);
    buffer := WriteBuffer(ops, showDate);
  }
}
