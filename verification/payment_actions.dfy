/**
 * The actions of the payments table: marking a payment paid (directly, after
 * the approval check, from petty cash or by issuing a cheque), copying a paid
 * cheque or transfer payment into the bank-transaction list, and clearing the
 * references other registries hold to a payment.
 */
module PaymentActions {
  import opened Common
  import opened Domain
  import Text
  import Ledger
  import PC = PettyCash
  import CT = ChequeText
  import W = Workflow
  import Access

  // ------------------------------------------------------------ mark as paid

  /** The document a payment must be backed by; unset means an invoice. */
  function RequiredDocument(p: Pagamento): (d: Documento)
    ensures p.documentoRequerido.Some? ==> d == p.documentoRequerido.value
    ensures p.documentoRequerido.None? ==> d == Factura
  {
    if p.documentoRequerido.Some? then p.documentoRequerido.value else Factura
  }

  /** The payment as `handleMarkAsPaid` stores it: paid today, with the flags of
      the required document reset to "not received". */
  function MarkedPaid(p: Pagamento, now: Date): (q: Pagamento)
    ensures q.estado == Pago && q.dataPagamento == Some(now)
    ensures RequiredDocument(p) == Factura ==>
              q == p.(estado := Pago, dataPagamento := Some(now), facturaRecebida := Some(false), reciboRecebido := Some(false))
    ensures RequiredDocument(p) == Vd ==> q == p.(estado := Pago, dataPagamento := Some(now), vdRecebido := Some(false))
    ensures RequiredDocument(p) == Nenhum ==> q == p.(estado := Pago, dataPagamento := Some(now))
  {
    var q := p.(estado := Pago, dataPagamento := Some(now));
    match RequiredDocument(p)
    case Factura => q.(facturaRecebida := Some(false), reciboRecebido := Some(false))
    case Vd => q.(vdRecebido := Some(false))
    case Nenhum => q
  }

  /** `handleMarkAsPaid`: the payment is looked up by id across all suppliers
      and stored, marked paid, under the given supplier; an unknown id changes nothing. */
  function HandleMarkAsPaid(fs: seq<Fornecedor>, fornecedorId: string, pagamentoId: string,
                            actor: Ledger.Actor, entryId: string, now: Date): (r: seq<Fornecedor>)
    ensures FindLocated(AllPayments(fs), pagamentoId).None? ==> r == fs
    ensures FindLocated(AllPayments(fs), pagamentoId).Some? ==>
              r == Ledger.AtualizarPagamento(fs, fornecedorId, MarkedPaid(FindLocated(AllPayments(fs), pagamentoId).value.p, now),
                                             actor, entryId, now)
  {
    match FindLocated(AllPayments(fs), pagamentoId)
    case None => fs
    case Some(l) => Ledger.AtualizarPagamento(fs, fornecedorId, MarkedPaid(l.p, now), actor, entryId, now)
  }

  // ---------------------------------------------------- approval before paying

  /** 10,000 meticais: above this a payment needs approval. */
  const ApprovalThreshold: int := 10000 * MinorPerUnit

  /** `requerAprovacao`: large payments, and transfers or cheques, need an
      approved workflow before they are marked paid. The transfer test uses the
      accented spelling. */
  predicate RequiresApproval(p: Pagamento)
  {
    p.valor > ApprovalThreshold || p.metodo == TransferenciaAccented || p.metodo == ChequeMetodo
  }

  /** First stored workflow for the payment. */
  function FindWorkflow(ws: seq<W.ApprovalWorkflow>, pagamentoId: string): (r: Option<W.ApprovalWorkflow>)
    ensures r.Some? ==> r.value in ws && r.value.paymentId == pagamentoId
    ensures r.None? ==> forall w :: w in ws ==> w.paymentId != pagamentoId
  {
    if ws == [] then None
    else if ws[0].paymentId == pagamentoId then Some(ws[0])
    else FindWorkflow(ws[1..], pagamentoId)
  }

  /** `verificarWorkflowAprovacao`: the first workflow of the payment is
      approved. A missing or unparseable store answers no. */
  function VerificarWorkflowAprovacao(stored: Stored<W.ApprovalWorkflow>, pagamentoId: string): (b: bool)
    ensures !stored.Parsed? ==> !b
    ensures stored.Parsed? ==>
              (b <==> exists i :: 0 <= i < |stored.items| && stored.items[i].paymentId == pagamentoId
                                  && stored.items[i].status == W.Approved
                                  && forall j :: 0 <= j < i ==> stored.items[j].paymentId != pagamentoId)
  {
    match stored
    case Parsed(ws) =>
      FirstWorkflowIndex(ws, pagamentoId);
      var w := FindWorkflow(ws, pagamentoId);
      w.Some? && w.value.status == W.Approved
    case _ => false
  }

  /** The first workflow of a payment sits at the first index with its id. */
  lemma {:induction false} FirstWorkflowIndex(ws: seq<W.ApprovalWorkflow>, pagamentoId: string)
    ensures FindWorkflow(ws, pagamentoId).Some? ==>
              exists i :: 0 <= i < |ws| && ws[i] == FindWorkflow(ws, pagamentoId).value
                          && forall j :: 0 <= j < i ==> ws[j].paymentId != pagamentoId
    ensures forall i :: 0 <= i < |ws| && ws[i].paymentId == pagamentoId && (forall j :: 0 <= j < i ==> ws[j].paymentId != pagamentoId)
              ==> FindWorkflow(ws, pagamentoId) == Some(ws[i])
  {
    if ws != [] && ws[0].paymentId != pagamentoId {
      FirstWorkflowIndex(ws[1..], pagamentoId);
      if FindWorkflow(ws, pagamentoId).Some? {
        var i :| 0 <= i < |ws[1..]| && ws[1..][i] == FindWorkflow(ws, pagamentoId).value
                 && forall j :: 0 <= j < i ==> ws[1..][j].paymentId != pagamentoId;
        assert ws[i + 1] == ws[1..][i];
      }
      forall i | 0 <= i < |ws| && ws[i].paymentId == pagamentoId && (forall j :: 0 <= j < i ==> ws[j].paymentId != pagamentoId)
        ensures FindWorkflow(ws, pagamentoId) == Some(ws[i])
      {
        assert i > 0;
        assert ws[1..][i - 1] == ws[i];
        forall j | 0 <= j < i - 1
          ensures ws[1..][j].paymentId != pagamentoId
        {
          assert ws[1..][j] == ws[j + 1];
        }
      }
    }
  }

  /** Where `marcarComoPago` goes: on to mark the payment paid, off to the
      workflow page (the user accepted to create a workflow), or refused. */
  datatype Gate = Proceed | Redirect | Denied

  /** The approval check of `marcarComoPago`. `createWorkflow` is the user's
      answer to the offer to create a workflow. */
  function MarkPaidGate(p: Pagamento, workflows: Stored<W.ApprovalWorkflow>, createWorkflow: bool,
                        current: Option<User>, session: Access.StoredSession): (g: Gate)
    ensures g == Proceed <==>
              !RequiresApproval(p) || VerificarWorkflowAprovacao(workflows, p.id)
              || (!createWorkflow && Access.HasPermission(current, session, "approve_bank_operations"))
    ensures g == Redirect <==>
              RequiresApproval(p) && !VerificarWorkflowAprovacao(workflows, p.id) && createWorkflow
  {
    if !RequiresApproval(p) || VerificarWorkflowAprovacao(workflows, p.id) then Proceed
    else if createWorkflow then Redirect
    else if !Access.HasPermission(current, session, "approve_bank_operations") then Denied
    else Proceed
  }

  // ------------------------------------------------- bank-transaction upsert

  /** The transaction a paid payment is copied to: id "pag-" + payment id,
      a reconciled debit dated on the payment date, with the cheque number read
      from a cheque payment's observations and the id of the first registered
      cheque with that number. A cheque payment with no observations takes
      the generic description, as the cheque branch needs both. */
  function TransactionFor(p: Pagamento, fornecedorNome: string, cheques: Stored<Cheque>, now: Date): (t: Transacao)
    ensures t.id == "pag-" + p.id && t.pagamentoId == Some(p.id)
    ensures t.tipo == Debito && t.reconciliado && t.valor == p.valor && t.metodo == Some(p.metodo)
    ensures t.data == (if p.dataPagamento.Some? then p.dataPagamento.value else now)
    ensures p.metodo != ChequeMetodo ==> t.chequeNumero.None? && t.chequeId.None?
    ensures p.metodo == ChequeMetodo ==> t.chequeNumero == CT.ExtractChequeNumber(p.observacoes)
    ensures t.chequeId == RegisteredId(t.chequeNumero, cheques)
    ensures t.descricao == (if p.metodo == ChequeMetodo && p.observacoes != "" then "Pagamento por cheque - "
                            else if p.metodo == TransferenciaPlain then "Transferência bancária - "
                            else "Pagamento - ") + fornecedorNome + " - " + p.referencia
  {
    var numero := if p.metodo == ChequeMetodo && p.observacoes != "" then CT.ExtractChequeNumber(p.observacoes) else None;
    var chequeId := RegisteredId(numero, cheques);
    var descricao :=
      if p.metodo == ChequeMetodo && p.observacoes != "" then "Pagamento por cheque - " + fornecedorNome + " - " + p.referencia
      else if p.metodo == TransferenciaPlain then "Transferência bancária - " + fornecedorNome + " - " + p.referencia
      else "Pagamento - " + fornecedorNome + " - " + p.referencia;
    Transacao("pag-" + p.id, if p.dataPagamento.Some? then p.dataPagamento.value else now, descricao, p.valor,
              Debito, true, Some(p.id), chequeId, numero, Some(p.metodo))
  }

  /** The id of the first registered cheque with the number, if the number
      and the registry are there. */
  function RegisteredId(numero: Option<string>, cheques: Stored<Cheque>): (r: Option<string>)
    ensures r.Some? ==> numero.Some? && cheques.Parsed?
                        && exists c :: c in cheques.items && c.numero == numero.value && c.id == r.value
    ensures numero.Some? && cheques.Parsed? && (exists c :: c in cheques.items && c.numero == numero.value) ==> r.Some?
    ensures r.Some? ==> numero.Some? && cheques.Parsed?
                        && exists k :: 0 <= k < |cheques.items| && cheques.items[k].numero == numero.value
                                       && cheques.items[k].id == r.value
                                       && forall j :: 0 <= j < k ==> cheques.items[j].numero != numero.value
  {
    if numero.Some? && cheques.Parsed? then
      match FindChequeByNumero(cheques.items, numero.value)
      case Some(c) => Some(c.id)
      case None => None
    else None
  }

  /** Whether some transaction is already linked to the payment. */
  predicate Linked(ts: seq<Transacao>, pagamentoId: string)
  {
    exists t :: t in ts && t.pagamentoId == Some(pagamentoId)
  }

  /** Insert-or-replace keyed by the linked payment id. */
  function Upsert(ts: seq<Transacao>, t: Transacao): (r: seq<Transacao>)
    requires t.pagamentoId.Some?
    ensures !Linked(ts, t.pagamentoId.value) ==> r == ts + [t]
    ensures Linked(ts, t.pagamentoId.value) ==>
              |r| == |ts| && forall k :: 0 <= k < |ts| ==> r[k] == if ts[k].pagamentoId == t.pagamentoId then t else ts[k]
  {
    if Linked(ts, t.pagamentoId.value) then
      seq(|ts|, k requires 0 <= k < |ts| => if ts[k].pagamentoId == t.pagamentoId then t else ts[k])
    else ts + [t]
  }

  /** `adicionarTransacaoBancaria`: nothing when the supplier is unknown;
      otherwise the payment's transaction is upserted into the stored list, a
      missing or unparseable list being replaced by the one transaction. */
  function AdicionarTransacaoBancaria(fs: seq<Fornecedor>, fornecedorId: string, p: Pagamento,
                                      txs: Stored<Transacao>, cheques: Stored<Cheque>, now: Date): (r: Stored<Transacao>)
    ensures FindFornecedor(fs, fornecedorId).None? ==> r == txs
    ensures FindFornecedor(fs, fornecedorId).Some? ==>
              var t := TransactionFor(p, FindFornecedor(fs, fornecedorId).value.nome, cheques, now);
              r.Parsed? && t in r.items
              && (!txs.Parsed? ==> r.items == [t])
              && (txs.Parsed? ==> r.items == Upsert(txs.items, t))
  {
    match FindFornecedor(fs, fornecedorId)
    case None => txs
    case Some(f) =>
      var t := TransactionFor(p, f.nome, cheques, now);
      match txs
      case Parsed(ts) =>
        assert Linked(ts, p.id) ==> exists k :: 0 <= k < |ts| && ts[k].pagamentoId == Some(p.id);
        Parsed(Upsert(ts, t))
      case _ => Parsed([t])
  }

  /** `marcarComoPago`: past the approval check, the payment is stored paid
      today, and a cheque or (unaccented) transfer payment is copied to the
      bank-transaction list. */
  function MarcarComoPago(fs: seq<Fornecedor>, fornecedorId: string, p: Pagamento,
                          workflows: Stored<W.ApprovalWorkflow>, createWorkflow: bool,
                          current: Option<User>, session: Access.StoredSession,
                          txs: Stored<Transacao>, cheques: Stored<Cheque>,
                          actor: Ledger.Actor, entryId: string, now: Date): (r: (seq<Fornecedor>, Stored<Transacao>))
    ensures MarkPaidGate(p, workflows, createWorkflow, current, session) != Proceed ==> r == (fs, txs)
    ensures MarkPaidGate(p, workflows, createWorkflow, current, session) == Proceed ==>
              var q := p.(estado := Pago, dataPagamento := Some(now));
              r.0 == Ledger.AtualizarPagamento(fs, fornecedorId, q, actor, entryId, now)
              && (p.metodo == ChequeMetodo || p.metodo == TransferenciaPlain ==>
                    r.1 == AdicionarTransacaoBancaria(fs, fornecedorId, q, txs, cheques, now))
              && (p.metodo != ChequeMetodo && p.metodo != TransferenciaPlain ==> r.1 == txs)
  {
    if MarkPaidGate(p, workflows, createWorkflow, current, session) != Proceed then (fs, txs)
    else
      var q := p.(estado := Pago, dataPagamento := Some(now));
      var fs2 := Ledger.AtualizarPagamento(fs, fornecedorId, q, actor, entryId, now);
      if q.metodo == ChequeMetodo || q.metodo == TransferenciaPlain
      then (fs2, AdicionarTransacaoBancaria(fs, fornecedorId, q, txs, cheques, now))
      else (fs2, txs)
  }

  // --------------------------------------------------------- petty cash

  /** `handlePagarComFundoManeio`: a withdrawal for the payment's amount is
      booked today; if the petty-cash ledger refuses it the payment is left as
      it was, otherwise it is stored paid from petty cash, pointing at the movement. */
  function PagarComFundoManeio(fs: seq<Fornecedor>, fundos: seq<PC.Fundo>, selected: Option<Located>,
                               descricao: string, movimentoId: string,
                               actor: Ledger.Actor, entryId: string, now: Date, today: string)
    : (r: (seq<Fornecedor>, seq<PC.Fundo>))
    ensures selected.None? ==> r == (fs, fundos)
    ensures selected.Some? ==>
              var l := selected.value;
              var out := PC.AdicionarMovimento(fundos, WithdrawalFor(l, descricao, now), now, movimentoId);
              r.1 == out.fundos
              && (out.id.None? ==> r == (fs, fundos))
              && (out.id.Some? ==>
                    r.0 == Ledger.AtualizarPagamento(fs, l.fornecedorId,
                             l.p.(estado := Pago, dataPagamento := Some(now), metodo := FundoDeManeio,
                                  fundoManeioId := Some(movimentoId),
                                  observacoes := Text.AppendNote(l.p.observacoes, "Pago com Fundo de Maneio em " + today)),
                             actor, entryId, now))
  {
    match selected
    case None => (fs, fundos)
    case Some(l) =>
      var out := PC.AdicionarMovimento(fundos, WithdrawalFor(l, descricao, now), now, movimentoId);
      match out.id
      case None => (fs, out.fundos)
      case Some(id) =>
        var q := l.p.(estado := Pago, dataPagamento := Some(now), metodo := FundoDeManeio, fundoManeioId := Some(id),
                      observacoes := Text.AppendNote(l.p.observacoes, "Pago com Fundo de Maneio em " + today));
        (Ledger.AtualizarPagamento(fs, l.fornecedorId, q, actor, entryId, now), out.fundos)
  }

  /** The withdrawal request for a payment, with a default description. */
  function WithdrawalFor(l: Located, descricao: string, now: Date): (req: PC.Pedido)
    ensures req.tipo == Some(PC.Saida) && req.valor == Some(l.p.valor) && req.data == Some(now)
    ensures req.pagamentoId == Some(l.p.id) && req.fornecedorNome == Some(l.fornecedorNome)
    ensures descricao != "" ==> req.descricao == Some(descricao)
    ensures descricao == "" ==> req.descricao == Some("Pagamento a " + l.fornecedorNome + " - Ref: " + l.p.referencia)
    ensures req.pagamentoReferencia == Some(l.p.referencia)
  {
    PC.Pedido(Some(now), Some(PC.Saida), Some(l.p.valor),
              Some(if descricao != "" then descricao else "Pagamento a " + l.fornecedorNome + " - Ref: " + l.p.referencia),
              Some(l.p.id), Some(l.p.referencia), Some(l.fornecedorNome))
  }

  // ------------------------------------------------------------- cheques

  /** The payment as `handleSalvarCheque` stores it. */
  function WithCheque(p: Pagamento, numero: string, dateText: string): (q: Pagamento)
    ensures q.metodo == ChequeMetodo
    ensures q.observacoes == Text.AppendNote(p.observacoes, CT.EmissionNote(numero, dateText))
    ensures q == p.(metodo := q.metodo, observacoes := q.observacoes)
  {
    p.(metodo := ChequeMetodo, observacoes := Text.AppendNote(p.observacoes, CT.EmissionNote(numero, dateText)))
  }

  /** `handleSalvarCheque`: with a payment selected, a number and an issue
      date, the payment is marked as paid by cheque and a pending cheque
      pointing to it is appended to the registry. The registry is read without
      a guard, so an unparseable one stops the handler after the payment update. */
  function SalvarCheque(fs: seq<Fornecedor>, cheques: Stored<Cheque>, selected: Option<Located>,
                        numero: string, dataEmissao: Option<Date>, dateText: string, chequeId: string,
                        actor: Ledger.Actor, entryId: string, now: Date): (r: (seq<Fornecedor>, Stored<Cheque>))
    ensures selected.None? || numero == "" || dataEmissao.None? ==> r == (fs, cheques)
    ensures selected.Some? && numero != "" && dataEmissao.Some? ==>
              var l := selected.value;
              r.0 == Ledger.AtualizarPagamento(fs, l.fornecedorId, WithCheque(l.p, numero, dateText), actor, entryId, now)
              && (cheques.Corrupt? ==> r.1 == cheques)
              && (!cheques.Corrupt? ==>
                    r.1 == Parsed(OrEmpty(cheques) + [Cheque(chequeId, numero, l.p.valor, l.fornecedorNome, dataEmissao.value,
                                                             None, ChequePendente, Some(l.p.id), Some(l.p.referencia),
                                                             l.fornecedorNome)]))
  {
    if selected.None? || numero == "" || dataEmissao.None? then (fs, cheques)
    else
      var l := selected.value;
      var fs2 := Ledger.AtualizarPagamento(fs, l.fornecedorId, WithCheque(l.p, numero, dateText), actor, entryId, now);
      var c := Cheque(chequeId, numero, l.p.valor, l.fornecedorNome, dataEmissao.value, None, ChequePendente,
                      Some(l.p.id), Some(l.p.referencia), l.fornecedorNome);
      match cheques
      case Corrupt => (fs2, cheques)
      case _ => (fs2, Parsed(OrEmpty(cheques) + [c]))
  }

  /** A cheque with its payment reference cleared. */
  function Unlinked(c: Cheque): Cheque
  {
    c.(pagamentoId := None, pagamentoReferencia := None)
  }

  /** `removerReferenciaChequePagamento`: every cheque pointing to the payment
      loses its payment reference. */
  function RemoverReferenciaCheque(cs: seq<Cheque>, pagamentoId: string): (r: seq<Cheque>)
    ensures |r| == |cs|
    ensures forall k :: 0 <= k < |cs| && cs[k].pagamentoId == Some(pagamentoId) ==> r[k] == Unlinked(cs[k])
    ensures forall k :: 0 <= k < |cs| && cs[k].pagamentoId != Some(pagamentoId) ==> r[k] == cs[k]
  {
    seq(|cs|, k requires 0 <= k < |cs| => if cs[k].pagamentoId == Some(pagamentoId) then Unlinked(cs[k]) else cs[k])
  }

  /** A petty-cash movement with its payment reference cleared. */
  function Detached(m: PC.Movimento): PC.Movimento
  {
    m.(pagamentoId := None, pagamentoReferencia := None)
  }

  /** The first movement with the id, scanning bucket by bucket: (bucket, movement). */
  function FirstMovement(fs: seq<PC.Fundo>, id: string): (r: Option<(nat, nat)>)
    ensures r.Some? ==>
              var (b, m) := r.value;
              b < |fs| && m < |fs[b].movimentos| && fs[b].movimentos[m].id == id
              && (forall j :: 0 <= j < m ==> fs[b].movimentos[j].id != id)
              && (forall a, j :: 0 <= a < b && 0 <= j < |fs[a].movimentos| ==> fs[a].movimentos[j].id != id)
    ensures r.None? ==> forall a, j :: 0 <= a < |fs| && 0 <= j < |fs[a].movimentos| ==> fs[a].movimentos[j].id != id
  {
    if fs == [] then None
    else
      match FirstIndex(fs[0].movimentos, id)
      case Some(m) => Some((0, m))
      case None =>
        match FirstMovement(fs[1..], id)
        case None => None
        case Some((b, m)) =>
          assert fs[b + 1] == fs[1..][b];
          assert forall a :: 1 <= a <= b ==> fs[a] == fs[1..][a - 1];
          Some((b + 1, m))
  }

  /** `findIndex` on a bucket's movements. */
  function FirstIndex(ms: seq<PC.Movimento>, id: string): (r: Option<nat>)
    ensures r.Some? ==> r.value < |ms| && ms[r.value].id == id && forall j :: 0 <= j < r.value ==> ms[j].id != id
    ensures r.None? ==> forall j :: 0 <= j < |ms| ==> ms[j].id != id
  {
    if ms == [] then None
    else if ms[0].id == id then Some(0)
    else match FirstIndex(ms[1..], id)
      case None => None
      case Some(k) => Some(k + 1)
  }

  /** `removerReferenciaFundoManeio`: the first movement with the id keeps its
      place and its amount but loses its payment reference; every other
      movement, and every bucket's balance, is unchanged. */
  function RemoverReferenciaFundoManeio(fs: seq<PC.Fundo>, movimentoId: string): (r: seq<PC.Fundo>)
    ensures FirstMovement(fs, movimentoId).None? ==> r == fs
    ensures |r| == |fs|
    ensures forall a :: 0 <= a < |fs| ==>
              r[a] == fs[a].(movimentos := r[a].movimentos) && |r[a].movimentos| == |fs[a].movimentos|
    ensures FirstMovement(fs, movimentoId).Some? ==>
              var (b, m) := FirstMovement(fs, movimentoId).value;
              r[b].movimentos[m] == Detached(fs[b].movimentos[m])
              && forall a, j :: 0 <= a < |fs| && 0 <= j < |fs[a].movimentos| && (a, j) != (b, m) ==>
                   r[a].movimentos[j] == fs[a].movimentos[j]
  {
    match FirstMovement(fs, movimentoId)
    case None => fs
    case Some((b, m)) =>
      fs[b := fs[b].(movimentos := fs[b].movimentos[m := Detached(fs[b].movimentos[m])])]
  }

  /** `removerReferenciaChequePagamento` on the stored registry. The registry
      is parsed without a guard, so an unparseable one throws (`None`); the
      list is written back only when some cheque pointed to the payment. */
  function ClearChequeStore(stored: Stored<Cheque>, pagamentoId: string): (r: Option<Stored<Cheque>>)
    ensures r.None? <==> stored.Corrupt?
    ensures r.Some? && (exists k :: 0 <= k < |OrEmpty(stored)| && OrEmpty(stored)[k].pagamentoId == Some(pagamentoId)) ==>
              r.value == Parsed(RemoverReferenciaCheque(OrEmpty(stored), pagamentoId))
    ensures r.Some? && (forall k :: 0 <= k < |OrEmpty(stored)| ==> OrEmpty(stored)[k].pagamentoId != Some(pagamentoId)) ==>
              r.value == stored
  {
    if stored.Corrupt? then None
    else if exists k :: 0 <= k < |OrEmpty(stored)| && OrEmpty(stored)[k].pagamentoId == Some(pagamentoId)
    then Some(Parsed(RemoverReferenciaCheque(OrEmpty(stored), pagamentoId)))
    else Some(stored)
  }

  /** `removerReferenciaFundoManeio` on the stored buckets. The buckets are
      parsed without a guard, so unparseable ones throw (`None`); they are
      written back only when a movement with the id was found. */
  function ClearFundoStore(stored: Stored<PC.Fundo>, movimentoId: string): (r: Option<Stored<PC.Fundo>>)
    ensures r.None? <==> stored.Corrupt?
    ensures r.Some? && FirstMovement(OrEmpty(stored), movimentoId).Some? ==>
              r.value == Parsed(RemoverReferenciaFundoManeio(OrEmpty(stored), movimentoId))
    ensures r.Some? && FirstMovement(OrEmpty(stored), movimentoId).None? ==> r.value == stored
  {
    if stored.Corrupt? then None
    else if FirstMovement(OrEmpty(stored), movimentoId).Some?
    then Some(Parsed(RemoverReferenciaFundoManeio(OrEmpty(stored), movimentoId)))
    else Some(stored)
  }

  /** Whether a payment's petty-cash id is set (a non-empty string is truthy). */
  predicate HasFundoRef(p: Pagamento)
  {
    p.fundoManeioId.Some? && p.fundoManeioId.value != ""
  }

  /** Whether the edit moves a payment off petty cash while it held a movement. */
  predicate LeavesFundo(original: Option<Pagamento>, p: Pagamento)
  {
    original.Some? && original.value.metodo == FundoDeManeio && p.metodo != FundoDeManeio && HasFundoRef(original.value)
  }

  /** Whether the edit moves a payment off cheque. */
  predicate LeavesCheque(original: Option<Pagamento>, p: Pagamento)
  {
    original.Some? && original.value.metodo == ChequeMetodo && p.metodo != ChequeMetodo
  }

  /** Whether the edit makes a payment a paid cheque payment, so that the
      handler looks for an existing cheque (`verificarChequeExistente`). */
  predicate EntersCheque(original: Option<Pagamento>, p: Pagamento)
  {
    p.metodo == ChequeMetodo && p.estado == Pago && (original.None? || original.value.metodo != ChequeMetodo)
  }

  /** Whether one of the unguarded reads of the edit meets an unparseable store,
      or the payment's old supplier is unknown (`oldFornecedor!.id`). */
  predicate EditThrows(fundos: Stored<PC.Fundo>, cheques: Stored<Cheque>, original: Option<Pagamento>, p: Pagamento,
                       oldId: Option<string>)
  {
    (LeavesFundo(original, p) && fundos.Corrupt?)
    || ((EntersCheque(original, p) || LeavesCheque(original, p)) && cheques.Corrupt?)
    || oldId.None?
  }

  /** The end of `handleEditPagamento`, after any petty-cash withdrawal: a
      payment leaving petty cash has its movement's reference cleared and
      loses its own, a payment leaving cheque has the cheques' references
      cleared, then the payment is routed to its supplier (`oldId` is the id
      of the supplier it was found under, if any). A throw before the routing
      leaves the suppliers untouched (`r.0 == None`), while a store written
      before the throw keeps that write. */
  function FinishEdit(fs: seq<Fornecedor>, fundos: Stored<PC.Fundo>, cheques: Stored<Cheque>,
                      original: Option<Pagamento>, p: Pagamento, oldId: Option<string>, newId: string,
                      actor: Ledger.Actor, entryId: string, now: Date)
    : (r: (Option<seq<Fornecedor>>, Stored<PC.Fundo>, Stored<Cheque>))
    ensures r.0.None? <==> EditThrows(fundos, cheques, original, p, oldId)
    ensures r.0.Some? ==>
              r.0.value == Ledger.EditRouting(fs, oldId.value, newId,
                                              if LeavesFundo(original, p) then p.(fundoManeioId := None) else p,
                                              actor, entryId, now)
    ensures LeavesFundo(original, p) && !fundos.Corrupt? ==> Some(r.1) == ClearFundoStore(fundos, original.value.fundoManeioId.value)
    ensures !LeavesFundo(original, p) || fundos.Corrupt? ==> r.1 == fundos
    ensures LeavesCheque(original, p) && !cheques.Corrupt? && !(LeavesFundo(original, p) && fundos.Corrupt?) ==>
              Some(r.2) == ClearChequeStore(cheques, p.id)
    ensures !LeavesCheque(original, p) || cheques.Corrupt? || (LeavesFundo(original, p) && fundos.Corrupt?) ==> r.2 == cheques
  {
    var fundos2 := if LeavesFundo(original, p) then ClearFundoStore(fundos, original.value.fundoManeioId.value) else Some(fundos);
    if fundos2.None? then (None, fundos, cheques)
    else if EntersCheque(original, p) && cheques.Corrupt? then (None, fundos2.value, cheques)
    else
      var q := if LeavesFundo(original, p) then p.(fundoManeioId := None) else p;
      var cheques2 := if LeavesCheque(original, p) then ClearChequeStore(cheques, p.id) else Some(cheques);
      if cheques2.None? || oldId.None? then (None, fundos2.value, if cheques2.Some? then cheques2.value else cheques)
      else (Some(Ledger.EditRouting(fs, oldId.value, newId, q, actor, entryId, now)), fundos2.value, cheques2.value)
  }

  // ---------------------------------------------------------------- lemmas

  /** Paying from petty cash keeps every bucket balanced, and when the
      ledger accepts the withdrawal the payment is stored paid from petty
      cash, pointing at the new movement. */
  lemma PagarKeepsBalanced(fs: seq<Fornecedor>, fundos: seq<PC.Fundo>, l: Located, descricao: string,
                           movimentoId: string, actor: Ledger.Actor, entryId: string, now: Date, today: string)
    requires forall f :: f in fundos ==> PC.Balanced(f)
    ensures var r := PagarComFundoManeio(fs, fundos, Some(l), descricao, movimentoId, actor, entryId, now, today);
            forall f :: f in r.1 ==> PC.Balanced(f)
    ensures var r := PagarComFundoManeio(fs, fundos, Some(l), descricao, movimentoId, actor, entryId, now, today);
            var out := PC.AdicionarMovimento(fundos, WithdrawalFor(l, descricao, now), now, movimentoId);
            out.id.Some? && Domain.FindFornecedor(fs, l.fornecedorId).Some? ==>
              forall i, k :: 0 <= i < |fs| && fs[i].id == l.fornecedorId && 0 <= k < |fs[i].pagamentos|
                             && fs[i].pagamentos[k].id == l.p.id ==>
                r.0[i].pagamentos[k].estado == Pago && r.0[i].pagamentos[k].metodo == FundoDeManeio
                && r.0[i].pagamentos[k].fundoManeioId == Some(movimentoId)
  {
    PC.AddKeepsBalanced(fundos, WithdrawalFor(l, descricao, now), now, movimentoId);
  }

  /** Upserting the same transaction twice is the same as once. */
  lemma UpsertIdempotent(ts: seq<Transacao>, t: Transacao)
    requires t.pagamentoId.Some?
    ensures Upsert(Upsert(ts, t), t) == Upsert(ts, t)
  {
    var once := Upsert(ts, t);
    assert t in once;
    assert Linked(once, t.pagamentoId.value);
  }

  /** The list grows by one exactly when no transaction was linked to the payment. */
  lemma UpsertGrowsIffNew(ts: seq<Transacao>, t: Transacao)
    requires t.pagamentoId.Some?
    ensures |Upsert(ts, t)| == |ts| + 1 <==> !Linked(ts, t.pagamentoId.value)
    ensures |Upsert(ts, t)| == |ts| <==> Linked(ts, t.pagamentoId.value)
  {
  }

  /** After the upsert exactly the transactions linked to the payment are the
      new one: nothing else is linked to it. */
  lemma UpsertLinksOnlyNew(ts: seq<Transacao>, t: Transacao)
    requires t.pagamentoId.Some?
    ensures forall u :: u in Upsert(ts, t) && u.pagamentoId == t.pagamentoId ==> u == t
  {
    var r := Upsert(ts, t);
    forall u | u in r && u.pagamentoId == t.pagamentoId
      ensures u == t
    {
      var k :| 0 <= k < |r| && r[k] == u;
    }
  }

  /** Clearing cheque references leaves no cheque pointing to the payment, and
      doing it again changes nothing. */
  lemma RemoverReferenciaChequeClears(cs: seq<Cheque>, pagamentoId: string)
    ensures forall c :: c in RemoverReferenciaCheque(cs, pagamentoId) ==> c.pagamentoId != Some(pagamentoId)
    ensures RemoverReferenciaCheque(RemoverReferenciaCheque(cs, pagamentoId), pagamentoId) == RemoverReferenciaCheque(cs, pagamentoId)
  {
    var r := RemoverReferenciaCheque(cs, pagamentoId);
    forall c | c in r
      ensures c.pagamentoId != Some(pagamentoId)
    {
      var k :| 0 <= k < |r| && r[k] == c;
    }
  }

  /** Removing a petty-cash reference keeps every balance and every movement count. */
  lemma RemoverReferenciaKeepsBalances(fs: seq<PC.Fundo>, movimentoId: string)
    requires forall f :: f in fs ==> PC.Balanced(f)
    ensures forall f :: f in RemoverReferenciaFundoManeio(fs, movimentoId) ==> PC.Balanced(f)
  {
    var r := RemoverReferenciaFundoManeio(fs, movimentoId);
    forall a | 0 <= a < |fs|
      ensures PC.NetOf(r[a].movimentos) == PC.NetOf(fs[a].movimentos)
    {
      NetOfSameAmounts(r[a].movimentos, fs[a].movimentos);
    }
    forall f | f in r
      ensures PC.Balanced(f)
    {
      var a :| 0 <= a < |r| && r[a] == f;
      assert fs[a] in fs;
    }
  }

  /** A completed edit that moves a payment off cheque leaves no stored cheque
      pointing to it. */
  lemma FinishEditUnlinksCheques(fs: seq<Fornecedor>, fundos: Stored<PC.Fundo>, cheques: Stored<Cheque>,
                                 original: Option<Pagamento>, p: Pagamento, oldId: Option<string>, newId: string,
                                 actor: Ledger.Actor, entryId: string, now: Date)
    requires LeavesCheque(original, p)
    ensures var r := FinishEdit(fs, fundos, cheques, original, p, oldId, newId, actor, entryId, now);
            r.0.Some? ==> forall c :: c in OrEmpty(r.2) ==> c.pagamentoId != Some(p.id)
  {
    var r := FinishEdit(fs, fundos, cheques, original, p, oldId, newId, actor, entryId, now);
    if r.0.Some? {
      RemoverReferenciaChequeClears(OrEmpty(cheques), p.id);
      if !exists k :: 0 <= k < |OrEmpty(cheques)| && OrEmpty(cheques)[k].pagamentoId == Some(p.id) {
        assert r.2 == cheques;
        forall c | c in OrEmpty(r.2)
          ensures c.pagamentoId != Some(p.id)
        {
          var k :| 0 <= k < |OrEmpty(cheques)| && OrEmpty(cheques)[k] == c;
        }
      }
    }
  }

  /** Whatever the edit does to the petty-cash store, balanced buckets stay
      balanced. */
  lemma FinishEditKeepsBalances(fs: seq<Fornecedor>, fundos: Stored<PC.Fundo>, cheques: Stored<Cheque>,
                                original: Option<Pagamento>, p: Pagamento, oldId: Option<string>, newId: string,
                                actor: Ledger.Actor, entryId: string, now: Date)
    requires forall f :: f in OrEmpty(fundos) ==> PC.Balanced(f)
    ensures var r := FinishEdit(fs, fundos, cheques, original, p, oldId, newId, actor, entryId, now);
            forall f :: f in OrEmpty(r.1) ==> PC.Balanced(f)
  {
    if LeavesFundo(original, p) && !fundos.Corrupt? {
      RemoverReferenciaKeepsBalances(OrEmpty(fundos), original.value.fundoManeioId.value);
    }
  }

  /** Movements that agree on type and amount have the same net effect. */
  lemma {:induction false} NetOfSameAmounts(xs: seq<PC.Movimento>, ys: seq<PC.Movimento>)
    requires |xs| == |ys|
    requires forall k :: 0 <= k < |xs| ==> xs[k].tipo == ys[k].tipo && xs[k].valor == ys[k].valor
    ensures PC.NetOf(xs) == PC.NetOf(ys)
  {
    if xs != [] {
      NetOfSameAmounts(xs[..|xs| - 1], ys[..|ys| - 1]);
    }
  }

  /** Issuing a cheque on a payment whose observations never mention a cheque,
      then marking it paid, copies the cheque's number to the bank transaction. */
  lemma ChequeNumberReachesTransaction(l: Located, numero: string, dateText: string,
                                       cheques: Stored<Cheque>, now: Date)
    requires numero != "" && CT.AllDigits(numero)
    requires CT.NoChequeWord(l.p.observacoes)
    ensures var q := WithCheque(l.p, numero, dateText).(estado := Pago, dataPagamento := Some(now));
            TransactionFor(q, l.fornecedorNome, cheques, now).chequeNumero == Some(numero)
  {
    CT.ExtractAfterEmission(l.p.observacoes, numero, dateText);
  }

  /** The transfer spelling: a transfer entered through the payment form
      (accented) needs approval but is not copied to the bank transactions,
      while one written by reconciliation (unaccented) is copied. */
  lemma TransferSpellingQuirk(fs: seq<Fornecedor>, fornecedorId: string, p: Pagamento,
                              workflows: Stored<W.ApprovalWorkflow>, current: Option<User>, session: Access.StoredSession,
                              txs: Stored<Transacao>, cheques: Stored<Cheque>, actor: Ledger.Actor, entryId: string, now: Date)
    requires p.valor <= ApprovalThreshold
    requires Access.HasPermission(current, session, "approve_bank_operations")
    ensures RequiresApproval(p.(metodo := TransferenciaAccented))
    ensures !RequiresApproval(p.(metodo := TransferenciaPlain))
    ensures MarcarComoPago(fs, fornecedorId, p.(metodo := TransferenciaAccented), workflows, false, current, session,
                           txs, cheques, actor, entryId, now).1 == txs
    ensures FindFornecedor(fs, fornecedorId).Some? ==>
              MarcarComoPago(fs, fornecedorId, p.(metodo := TransferenciaPlain), workflows, false, current, session,
                             txs, cheques, actor, entryId, now).1.Parsed?
  {
  }
}
