/**
 * The records of the treasury dashboard: suppliers owning payments with an
 * audit history, users and roles, issued cheques and bank-statement
 * transactions.
 */
module Domain {
  import opened Common
  import Text

  /** Lifecycle of a payment. */
  datatype Estado = Pendente | Pago | Atrasado | Cancelado

  /** Payment method. The payment type declares five spellings, among them the
      accented "transferência" (`TransferenciaAccented`). Reconciliation writes
      the unaccented "transferencia" (`TransferenciaPlain`) into payments, and
      bank transactions may also carry "deposito" (`Deposito`). */
  datatype Metodo =
    | TransferenciaAccented
    | TransferenciaPlain
    | ChequeMetodo
    | DebitoDireto
    | FundoDeManeio
    | Outro
    | Deposito

  /** Whether a payment is an invoice or a quotation. */
  datatype Tipo = Fatura | Cotacao

  /** The fiscal document a paid payment must be backed by. */
  datatype Documento = Factura | Vd | Nenhum

  datatype Acao = Create | Update | Delete

  /** One audit-history entry of a payment, with before/after snapshots. */
  datatype HistoryEntry = HistoryEntry(
    id: string,
    timestamp: Date,
    userId: string,
    username: string,
    action: Acao,
    entityType: string,
    entityId: string,
    details: string,
    previousState: Option<Pagamento>,
    newState: Option<Pagamento>)

  datatype Pagamento = Pagamento(
    id: string,
    referencia: string,
    valor: int,
    dataVencimento: Date,
    dataPagamento: Option<Date>,
    estado: Estado,
    metodo: Metodo,
    departamento: string,
    observacoes: string,
    descricao: string,
    tipo: Tipo,
    historico: Option<seq<HistoryEntry>>,
    facturaRecebida: Option<bool>,
    reciboRecebido: Option<bool>,
    fundoManeioId: Option<string>,
    documentoRequerido: Option<Documento>,
    vdRecebido: Option<bool>)

  /** A supplier and the payments it owns, in insertion order. */
  datatype Fornecedor = Fornecedor(id: string, nome: string, pagamentos: seq<Pagamento>)

  /** A payment seen through the flat list of all payments, with its owner. */
  datatype Located = Located(p: Pagamento, fornecedorId: string, fornecedorNome: string)

  /** Every payment of every supplier, supplier by supplier and in each
      supplier's own order, tagged with the owner's id and name. */
  function AllPayments(fs: seq<Fornecedor>): (r: seq<Located>)
    ensures |r| == TotalPayments(fs)
    ensures forall l :: l in r ==> exists f :: f in fs && f.id == l.fornecedorId && l.p in f.pagamentos
  {
    if fs == [] then []
    else
      AllPayments(fs[..|fs| - 1]) + Tagged(fs[|fs| - 1])
  }

  /** One supplier's payments in its own order, each tagged with its owner. */
  function Tagged(f: Fornecedor): (r: seq<Located>)
    ensures |r| == |f.pagamentos|
    ensures forall k :: 0 <= k < |r| ==> r[k] == Located(f.pagamentos[k], f.id, f.nome)
  {
    seq(|f.pagamentos|, k requires 0 <= k < |f.pagamentos| => Located(f.pagamentos[k], f.id, f.nome))
  }

  /** The flat list of a concatenation of suppliers is the concatenation of
      their flat lists. */
  lemma {:induction false} AllPaymentsAppend(a: seq<Fornecedor>, b: seq<Fornecedor>)
    ensures AllPayments(a + b) == AllPayments(a) + AllPayments(b)
    decreases |b|
  {
    if b == [] {
      assert a + b == a;
    } else {
      var init, last := b[..|b| - 1], b[|b| - 1];
      assert (a + b)[..|a + b| - 1] == a + init && (a + b)[|a + b| - 1] == last;
      assert b == init + [last];
      calc {
        AllPayments(a + b);
        { assert a + b != []; }
        AllPayments(a + init) + Tagged(last);
        { AllPaymentsAppend(a, init); }
        (AllPayments(a) + AllPayments(init)) + Tagged(last);
        AllPayments(a) + (AllPayments(init) + Tagged(last));
        { assert AllPayments(b) == AllPayments(init) + Tagged(last); }
        AllPayments(a) + AllPayments(b);
      }
    }
  }

  /** A supplier on its own contributes its payments in its own order, each
      tagged with its id and name. */
  lemma AllPaymentsSingle(f: Fornecedor)
    ensures |AllPayments([f])| == |f.pagamentos|
    ensures forall k :: 0 <= k < |f.pagamentos| ==> AllPayments([f])[k] == Located(f.pagamentos[k], f.id, f.nome)
  {
    assert [f][..0] == [];
  }

  /** Splitting a supplier's payment list in two splits its flat list the
      same way. */
  lemma AllPaymentsSplit(id: string, nome: string, ps: seq<Pagamento>, qs: seq<Pagamento>)
    ensures AllPayments([Fornecedor(id, nome, ps + qs)])
            == AllPayments([Fornecedor(id, nome, ps)]) + AllPayments([Fornecedor(id, nome, qs)])
  {
    AllPaymentsSingle(Fornecedor(id, nome, ps + qs));
    AllPaymentsSingle(Fornecedor(id, nome, ps));
    AllPaymentsSingle(Fornecedor(id, nome, qs));
  }

  /** Number of payments held by all suppliers together. */
  function TotalPayments(fs: seq<Fornecedor>): nat
  {
    if fs == [] then 0 else TotalPayments(fs[..|fs| - 1]) + |fs[|fs| - 1].pagamentos|
  }

  /** The date the reports file a payment under: its payment date when set,
      otherwise its due date. */
  function EffectiveDate(p: Pagamento): Date
  {
    if p.dataPagamento.Some? then p.dataPagamento.value else p.dataVencimento
  }

  /** First payment in the flat list with the given id (`todosPagamentos.find`). */
  function FindLocated(all: seq<Located>, id: string): (r: Option<Located>)
    ensures r.Some? ==> r.value in all && r.value.p.id == id
    ensures r.None? ==> forall l :: l in all ==> l.p.id != id
    ensures r.Some? ==> exists k :: 0 <= k < |all| && all[k] == r.value && forall j :: 0 <= j < k ==> all[j].p.id != id
  {
    if all == [] then None
    else if all[0].p.id == id then Some(all[0])
    else
      var r := FindLocated(all[1..], id);
      if r.Some? then
        var k :| 0 <= k < |all[1..]| && all[1..][k] == r.value && forall j :: 0 <= j < k ==> all[1..][j].p.id != id;
        assert all[k + 1] == r.value;
        r
      else r
  }

  /** First supplier with the given id (`fornecedores.find`). */
  function FindFornecedor(fs: seq<Fornecedor>, id: string): (r: Option<Fornecedor>)
    ensures r.Some? ==> r.value in fs && r.value.id == id
    ensures r.None? ==> forall f :: f in fs ==> f.id != id
    ensures r.Some? ==> exists k :: 0 <= k < |fs| && fs[k] == r.value && forall j :: 0 <= j < k ==> fs[j].id != id
  {
    if fs == [] then None
    else if fs[0].id == id then Some(fs[0])
    else
      var r := FindFornecedor(fs[1..], id);
      if r.Some? then
        var k :| 0 <= k < |fs[1..]| && fs[1..][k] == r.value && forall j :: 0 <= j < k ==> fs[1..][j].id != id;
        assert fs[k + 1] == r.value;
        r
      else r
  }

  /** First payment of a list with the given id. */
  function FindPagamento(ps: seq<Pagamento>, id: string): (r: Option<Pagamento>)
    ensures r.Some? ==> r.value in ps && r.value.id == id
    ensures r.None? ==> forall p :: p in ps ==> p.id != id
    ensures r.Some? ==> exists k :: 0 <= k < |ps| && ps[k] == r.value && forall j :: 0 <= j < k ==> ps[j].id != id
  {
    if ps == [] then None
    else if ps[0].id == id then Some(ps[0])
    else
      var r := FindPagamento(ps[1..], id);
      if r.Some? then
        var k :| 0 <= k < |ps[1..]| && ps[1..][k] == r.value && forall j :: 0 <= j < k ==> ps[1..][j].id != id;
        assert ps[k + 1] == r.value;
        r
      else r
  }

  /** User roles. `RegularUser` is the role spelled "user". */
  datatype Role = RegularUser | Admin | Reitor | DirectoraFinanceira | Tesoureira

  /** The role's spelling in stored records and notification targets. */
  function RoleName(r: Role): string
  {
    match r
    case RegularUser => "user"
    case Admin => "admin"
    case Reitor => "reitor"
    case DirectoraFinanceira => "directora_financeira"
    case Tesoureira => "tesoureira"
  }

  lemma RoleNameInjective(a: Role, b: Role)
    ensures RoleName(a) == RoleName(b) <==> a == b
  {
  }

  datatype User = User(
    id: string,
    username: string,
    fullName: string,
    email: string,
    role: Role,
    password: string,
    isActive: bool,
    forcePasswordChange: bool,
    customPermissions: Option<seq<string>>)

  /** The one e-mail address that is always treated as an administrator. */
  const SpecialEmail: string := "v.mondlane1@gmail.com"

  predicate IsSpecialEmail(email: string)
  {
    Text.Lower(email) == SpecialEmail
  }

  datatype ChequeEstado = ChequePendente | Compensado | ChequeCancelado

  /** An issued cheque in the cheque registry. */
  datatype Cheque = Cheque(
    id: string,
    numero: string,
    valor: int,
    beneficiario: string,
    dataEmissao: Date,
    dataCompensacao: Option<Date>,
    estado: ChequeEstado,
    pagamentoId: Option<string>,
    pagamentoReferencia: Option<string>,
    fornecedorNome: string)

  /** First cheque of the registry with the given number. */
  function FindChequeByNumero(cs: seq<Cheque>, numero: string): (r: Option<Cheque>)
    ensures r.Some? ==> r.value in cs && r.value.numero == numero
    ensures r.None? ==> forall c :: c in cs ==> c.numero != numero
    ensures r.Some? ==> exists k :: 0 <= k < |cs| && cs[k] == r.value && forall j :: 0 <= j < k ==> cs[j].numero != numero
  {
    if cs == [] then None
    else if cs[0].numero == numero then Some(cs[0])
    else
      var r := FindChequeByNumero(cs[1..], numero);
      if r.Some? then
        var k :| 0 <= k < |cs[1..]| && cs[1..][k] == r.value && forall j :: 0 <= j < k ==> cs[1..][j].numero != numero;
        assert cs[k + 1] == r.value;
        r
      else r
  }

  datatype TxTipo = Credito | Debito

  /** A bank-statement transaction, imported, entered by hand or derived from a payment. */
  datatype Transacao = Transacao(
    id: string,
    data: Date,
    descricao: string,
    valor: int,
    tipo: TxTipo,
    reconciliado: bool,
    pagamentoId: Option<string>,
    chequeId: Option<string>,
    chequeNumero: Option<string>,
    metodo: Option<Metodo>)
}
