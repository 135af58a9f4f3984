/**
 * Bank reconciliation: settling unpaid invoices against the debits of a bank
 * statement, automatically or by hand, undoing a settlement, and clearing
 * the cheque a settled transaction refers to.
 */
module Reconciliation {
  import opened Common
  import opened Domain
  import opened Text
  import opened Ledger

  /** The three stores reconciliation touches: the statement transactions,
      the suppliers with their payments, and the cheque registry. */
  datatype Books = Books(txs: seq<Transacao>, fs: seq<Fornecedor>, cheques: Stored<Cheque>)

  // ------------------------------------------------------------ cheque registry

  /** `atualizarEstadoCheque`: in a readable registry every cheque with the id
      takes the new state, and the given clearance date when there is one;
      an absent or unreadable registry is left alone. */
  function AtualizarEstadoCheque(stored: Stored<Cheque>, chequeId: string, estado: ChequeEstado, data: Option<Date>): (r: Stored<Cheque>)
    ensures !stored.Parsed? ==> r == stored
    ensures stored.Parsed? ==> r.Parsed? && |r.items| == |stored.items|
    ensures stored.Parsed? ==>
              forall k :: 0 <= k < |stored.items| ==>
                if stored.items[k].id == chequeId then
                  r.items[k].estado == estado
                  && r.items[k].dataCompensacao == (if data.Some? then data else stored.items[k].dataCompensacao)
                  && r.items[k].(estado := stored.items[k].estado, dataCompensacao := stored.items[k].dataCompensacao) == stored.items[k]
                else r.items[k] == stored.items[k]
  {
    match stored
    case Parsed(cs) =>
      Parsed(seq(|cs|, k requires 0 <= k < |cs| =>
        if cs[k].id == chequeId
        then cs[k].(estado := estado, dataCompensacao := if data.Some? then data else cs[k].dataCompensacao)
        else cs[k]))
    case _ => stored
  }

  /** Every cheque of a readable registry with the id has cleared. */
  predicate Compensated(stored: Stored<Cheque>, chequeId: string)
  {
    stored.Parsed? ==> forall k :: 0 <= k < |stored.items| && stored.items[k].id == chequeId ==> stored.items[k].estado == Compensado
  }

  /** Every payment with the id, in every supplier with the id, is paid. */
  predicate PaidIn(fs: seq<Fornecedor>, fornecedorId: string, pagamentoId: string)
  {
    forall i, k :: 0 <= i < |fs| && fs[i].id == fornecedorId && 0 <= k < |fs[i].pagamentos| && fs[i].pagamentos[k].id == pagamentoId ==>
      fs[i].pagamentos[k].estado == Pago
  }

  /** Nothing already paid or cleared is undone between two states. */
  ghost predicate Keeps(a: Books, b: Books)
  {
    (forall fid, pid :: PaidIn(a.fs, fid, pid) ==> PaidIn(b.fs, fid, pid))
    && (forall id :: Compensated(a.cheques, id) ==> Compensated(b.cheques, id))
  }

  // ------------------------------------------------------------ automatic matching

  /** A statement line the matcher looks at: an unreconciled debit. */
  predicate Eligible(t: Transacao)
  {
    t.tipo == Debito && !t.reconciliado
  }

  /** An invoice that is not paid yet; the matcher's candidates. */
  predicate Open(l: Located)
  {
    l.p.estado != Pago && l.p.tipo == Fatura
  }

  /** The candidate list, computed once before the statement is walked. */
  function Candidates(all: seq<Located>): (r: seq<Located>)
    ensures forall l :: l in r <==> l in all && Open(l)
  {
    if all == [] then [] else (if Open(all[0]) then [all[0]] else []) + Candidates(all[1..])
  }

  /** The candidate list works piecewise over a concatenation; with
      `CandidatesSingle`, the candidates keep the flat list's order, which
      decides the first fit. */
  lemma {:induction false} CandidatesAppend(a: seq<Located>, b: seq<Located>)
    ensures Candidates(a + b) == Candidates(a) + Candidates(b)
    decreases |a|
  {
    if a == [] {
      assert a + b == b;
    } else {
      assert (a + b)[0] == a[0] && (a + b)[1..] == a[1..] + b;
      CandidatesAppend(a[1..], b);
    }
  }

  /** A single entry is a candidate exactly when it is an open invoice. */
  lemma CandidatesSingle(l: Located)
    ensures Candidates([l]) == if Open(l) then [l] else []
  {
    assert [l][1..] == [];
  }

  /** A transaction that names the cheque it paid. */
  predicate ChequeTx(t: Transacao)
  {
    t.metodo == Some(ChequeMetodo) && Present(t.chequeNumero)
  }

  /** The statement text speaks of a transfer. */
  predicate TransferText(descricao: string)
  {
    Contains(Lower(descricao), "transf") || Contains(Lower(descricao), "transfer")
  }

  /** The three ways a candidate can answer a transaction. */
  datatype Path = ByCheque(numero: string) | ByTransfer(valor: int) | ByValue(valor: int)

  predicate Fits(l: Located, path: Path)
  {
    match path
    case ByCheque(n) => l.p.metodo == ChequeMetodo && Contains(l.p.observacoes, "Cheque nº " + n)
    case ByTransfer(v) => l.p.metodo == TransferenciaPlain && SameAmount(l.p.valor, v)
    case ByValue(v) => SameAmount(l.p.valor, v)
  }

  /** The first candidate that fits. */
  function FirstFit(cs: seq<Located>, path: Path): (r: Option<Located>)
    ensures r.Some? ==> exists k :: 0 <= k < |cs| && cs[k] == r.value && Fits(cs[k], path)
                                    && forall j :: 0 <= j < k ==> !Fits(cs[j], path)
    ensures r.None? ==> forall k :: 0 <= k < |cs| ==> !Fits(cs[k], path)
  {
    if cs == [] then None
    else if Fits(cs[0], path) then Some(cs[0])
    else
      var r := FirstFit(cs[1..], path);
      if r.Some? then
        var k :| 0 <= k < |cs[1..]| && cs[1..][k] == r.value && Fits(cs[1..][k], path)
                 && forall j :: 0 <= j < k ==> !Fits(cs[1..][j], path);
        assert cs[k + 1] == r.value;
        r
      else r
  }

  /** The path the transaction's own data selects, tried before the value fallback. */
  function Specific(t: Transacao): (r: Option<Path>)
    ensures r.Some? && r.value.ByCheque? <==> ChequeTx(t)
    ensures r.Some? && r.value.ByTransfer? <==> !ChequeTx(t) && TransferText(t.descricao)
    ensures r.Some? ==> !r.value.ByValue?
  {
    if ChequeTx(t) then Some(ByCheque(t.chequeNumero.value))
    else if TransferText(t.descricao) then Some(ByTransfer(t.valor))
    else None
  }

  /** Some transaction of the batch already points at some candidate. */
  predicate AnyLinked(cs: seq<Located>, txs: seq<Transacao>)
  {
    exists i, j :: 0 <= i < |cs| && 0 <= j < |txs| && txs[j].pagamentoId == Some(cs[i].p.id)
  }

  /** Whether some candidate fits a path. */
  predicate SomeFit(cs: seq<Located>, path: Path)
  {
    exists k :: 0 <= k < |cs| && Fits(cs[k], path)
  }

  /** The payment a transaction is matched with: the first candidate on the
      transaction's own path, else the first one with the same amount, but
      that fallback only while no candidate is linked by any transaction of
      the batch. */
  function FindMatch(cs: seq<Located>, t: Transacao, txs: seq<Transacao>): (r: Option<Located>)
    ensures r.Some? ==> r.value in cs
    ensures Specific(t).Some? && SomeFit(cs, Specific(t).value) ==> r.Some? && Fits(r.value, Specific(t).value)
    ensures r.Some? && !(Specific(t).Some? && Fits(r.value, Specific(t).value)) ==>
              !AnyLinked(cs, txs) && SameAmount(r.value.p.valor, t.valor)
    ensures r.None? <==>
              (Specific(t).None? || !SomeFit(cs, Specific(t).value)) && (AnyLinked(cs, txs) || !SomeFit(cs, ByValue(t.valor)))
    ensures Specific(t).Some? && SomeFit(cs, Specific(t).value) ==> r == FirstFit(cs, Specific(t).value)
    ensures (Specific(t).None? || !SomeFit(cs, Specific(t).value)) && !AnyLinked(cs, txs) ==>
              r == FirstFit(cs, ByValue(t.valor))
  {
    var s := if Specific(t).Some? then FirstFit(cs, Specific(t).value) else None;
    if s.Some? then s
    else if AnyLinked(cs, txs) then None
    else FirstFit(cs, ByValue(t.valor))
  }

  /** The transaction once linked to a payment; the method comes from the payment. */
  function LinkedTo(t: Transacao, l: Located): (r: Transacao)
    ensures r.reconciliado && r.pagamentoId == Some(l.p.id) && r.metodo == Some(l.p.metodo)
    ensures r.(reconciliado := t.reconciliado, pagamentoId := t.pagamentoId, metodo := t.metodo) == t
  {
    t.(reconciliado := true, pagamentoId := Some(l.p.id), metodo := Some(l.p.metodo))
  }

  /** The note the automatic matcher adds. */
  function AutoNote(t: Transacao): string
  {
    if Present(t.chequeNumero) then "Reconciliado com cheque nº " + t.chequeNumero.value
    else "Reconciliado com extrato bancário"
  }

  /** The payment as the matcher writes it back. The separator is added even
      to empty observations. */
  function Settled(l: Located, t: Transacao): (q: Pagamento)
    ensures q.id == l.p.id && q.estado == Pago && q.dataPagamento == Some(t.data)
    ensures q.observacoes == l.p.observacoes + " | " + AutoNote(t)
  {
    l.p.(estado := Pago, dataPagamento := Some(t.data), observacoes := l.p.observacoes + " | " + AutoNote(t))
  }

  /** One turn of the statement walk, at position `i`. */
  function Step(cs: seq<Located>, b: Books, i: nat, actor: Actor, entryId: string, now: Date): (r: Books)
    requires i < |b.txs|
    ensures |r.txs| == |b.txs|
    ensures forall k :: 0 <= k < |b.txs| && k != i ==> r.txs[k] == b.txs[k]
    ensures Keeps(b, r)
    ensures !Eligible(b.txs[i]) || FindMatch(cs, b.txs[i], b.txs).None? ==> r == b
    ensures Eligible(b.txs[i]) && FindMatch(cs, b.txs[i], b.txs).Some? ==>
              var t, l := b.txs[i], FindMatch(cs, b.txs[i], b.txs).value;
              r.txs[i] == LinkedTo(t, l) && PaidIn(r.fs, l.fornecedorId, l.p.id)
              && (Present(t.chequeId) ==> Compensated(r.cheques, t.chequeId.value))
  {
    var t := b.txs[i];
    if !Eligible(t) then b
    else
      match FindMatch(cs, t, b.txs)
      case None => b
      case Some(l) =>
        var q := Settled(l, t);
        var fs := AtualizarPagamento(b.fs, l.fornecedorId, q, actor, entryId, now);
        var cheques := if Present(t.chequeId) then AtualizarEstadoCheque(b.cheques, t.chequeId.value, Compensado, Some(t.data)) else b.cheques;
        UpdatePays(b.fs, l.fornecedorId, q, actor, entryId, now);
        ClearingKeeps(b.cheques, t, cheques);
        Books(b.txs[i := LinkedTo(t, l)], fs, cheques)
  }

  /** The first candidate on the transaction's own path, if it has one. */
  function SpecificFit(cs: seq<Located>, t: Transacao): (r: Option<Located>)
    ensures r.Some? ==> Specific(t).Some? && r == FirstFit(cs, Specific(t).value)
    ensures Specific(t).Some? ==> r == FirstFit(cs, Specific(t).value)
  {
    if Specific(t).Some? then FirstFit(cs, Specific(t).value) else None
  }

  /** The transactions from position `i` up to `k` are the same in both lists. */
  predicate Untouched(a: seq<Transacao>, b: seq<Transacao>, i: nat, k: nat)
  {
    forall j :: i <= j < k && j < |a| && j < |b| ==> a[j] == b[j]
  }

  /** The statement walk from position `i` on. Until the first transaction it
      links, the walk sees the statement as it was, so that transaction is
      linked to exactly what `FindMatch` picks against the original list;
      in particular, while nothing is linked, an eligible transaction whose
      own path finds nothing takes the first candidate with its amount. */
  function Run(cs: seq<Located>, b: Books, i: nat, actor: Actor, entryId: string, now: Date): (r: Books)
    requires i <= |b.txs|
    ensures |r.txs| == |b.txs|
    ensures Keeps(b, r)
    ensures forall k :: 0 <= k < i ==> r.txs[k] == b.txs[k]
    ensures forall k :: i <= k < |b.txs| && r.txs[k] != b.txs[k] ==>
              Eligible(b.txs[k])
              && (exists l :: l in cs && r.txs[k] == LinkedTo(b.txs[k], l) && PaidIn(r.fs, l.fornecedorId, l.p.id))
              && (Present(b.txs[k].chequeId) ==> Compensated(r.cheques, b.txs[k].chequeId.value))
    ensures forall k :: i <= k < |b.txs| && Eligible(b.txs[k]) && SpecificFit(cs, b.txs[k]).Some? ==>
              var l := SpecificFit(cs, b.txs[k]).value;
              r.txs[k] == LinkedTo(b.txs[k], l) && PaidIn(r.fs, l.fornecedorId, l.p.id)
    ensures forall k :: i <= k < |b.txs| && Untouched(r.txs, b.txs, i, k) ==>
              if Eligible(b.txs[k]) && FindMatch(cs, b.txs[k], b.txs).Some? then
                var l := FindMatch(cs, b.txs[k], b.txs).value;
                r.txs[k] == LinkedTo(b.txs[k], l) && PaidIn(r.fs, l.fornecedorId, l.p.id)
              else r.txs[k] == b.txs[k]
    decreases |b.txs| - i
  {
    if i == |b.txs| then b
    else
      var s := Step(cs, b, i, actor, entryId, now);
      var r := Run(cs, s, i + 1, actor, entryId, now);
      if s.txs[i] != b.txs[i] then
        var l := FindMatch(cs, b.txs[i], b.txs).value;
        assert PaidIn(r.fs, l.fornecedorId, l.p.id);
        assert forall k :: i < k < |b.txs| ==> !Untouched(r.txs, b.txs, i, k) by {
          assert r.txs[i] == s.txs[i];
        }
        r
      else
        assert s.txs == b.txs;
        r
  }

  /** `reconciliarAutomaticamente`: walks the statement once, matching each
      unreconciled debit against the invoices that were unpaid when the walk
      began; each match marks the payment paid and clears its cheque. */
  function ReconciliarAutomaticamente(b: Books, actor: Actor, entryId: string, now: Date): (r: Books)
    ensures |r.txs| == |b.txs|
    ensures Keeps(b, r)
    ensures forall k :: 0 <= k < |b.txs| && !Eligible(b.txs[k]) ==> r.txs[k] == b.txs[k]
    ensures forall k :: 0 <= k < |b.txs| && r.txs[k] != b.txs[k] ==>
              r.txs[k].reconciliado
              && (exists l :: l in AllPayments(b.fs) && Open(l) && r.txs[k] == LinkedTo(b.txs[k], l)
                              && PaidIn(r.fs, l.fornecedorId, l.p.id))
              && (Present(b.txs[k].chequeId) ==> Compensated(r.cheques, b.txs[k].chequeId.value))
    ensures forall k :: 0 <= k < |b.txs| && Eligible(b.txs[k]) && SpecificFit(Candidates(AllPayments(b.fs)), b.txs[k]).Some? ==>
              var l := SpecificFit(Candidates(AllPayments(b.fs)), b.txs[k]).value;
              Open(l) && r.txs[k] == LinkedTo(b.txs[k], l) && PaidIn(r.fs, l.fornecedorId, l.p.id)
    ensures forall k :: 0 <= k < |b.txs| && Untouched(r.txs, b.txs, 0, k) ==>
              var cs := Candidates(AllPayments(b.fs));
              if Eligible(b.txs[k]) && FindMatch(cs, b.txs[k], b.txs).Some? then
                var l := FindMatch(cs, b.txs[k], b.txs).value;
                Open(l) && r.txs[k] == LinkedTo(b.txs[k], l) && PaidIn(r.fs, l.fornecedorId, l.p.id)
              else r.txs[k] == b.txs[k]
  {
    Run(Candidates(AllPayments(b.fs)), b, 0, actor, entryId, now)
  }

  /** The value fallback over the whole walk: up to the first transaction the
      walk links, and while no transaction of the statement points at an
      open invoice, an eligible debit that its cheque number or transfer
      text does not place is linked to the first open invoice of the same
      amount, which ends up paid. */
  lemma AutoValueFallback(b: Books, actor: Actor, entryId: string, now: Date, k: nat)
    requires k < |b.txs| && Eligible(b.txs[k])
    requires Untouched(ReconciliarAutomaticamente(b, actor, entryId, now).txs, b.txs, 0, k)
    requires !AnyLinked(Candidates(AllPayments(b.fs)), b.txs)
    requires SpecificFit(Candidates(AllPayments(b.fs)), b.txs[k]).None?
    requires SomeFit(Candidates(AllPayments(b.fs)), ByValue(b.txs[k].valor))
    ensures var cs, r := Candidates(AllPayments(b.fs)), ReconciliarAutomaticamente(b, actor, entryId, now);
            var l := FirstFit(cs, ByValue(b.txs[k].valor));
            l.Some? && Open(l.value) && SameAmount(l.value.p.valor, b.txs[k].valor)
            && r.txs[k] == LinkedTo(b.txs[k], l.value) && PaidIn(r.fs, l.value.fornecedorId, l.value.p.id)
  {
    var cs, t := Candidates(AllPayments(b.fs)), b.txs[k];
    assert Specific(t).None? || !SomeFit(cs, Specific(t).value);
    assert FindMatch(cs, t, b.txs) == FirstFit(cs, ByValue(t.valor));
  }

  // ------------------------------------------------------------ manual linking

  /** First transaction with the id (`transacoes.find`). */
  function FindTransacao(txs: seq<Transacao>, id: string): (r: Option<Transacao>)
    ensures r.Some? ==> r.value.id == id && exists k :: 0 <= k < |txs| && txs[k] == r.value && forall j :: 0 <= j < k ==> txs[j].id != id
    ensures r.None? ==> forall k :: 0 <= k < |txs| ==> txs[k].id != id
  {
    if txs == [] then None
    else if txs[0].id == id then Some(txs[0])
    else
      var r := FindTransacao(txs[1..], id);
      if r.Some? then
        var k :| 0 <= k < |txs[1..]| && txs[1..][k] == r.value && forall j :: 0 <= j < k ==> txs[1..][j].id != id;
        assert txs[k + 1] == r.value;
        r
      else r
  }

  /** Every transaction with the id, with its link set or cleared. */
  function Relink(txs: seq<Transacao>, id: string, link: Option<string>): (r: seq<Transacao>)
    ensures |r| == |txs|
    ensures forall k :: 0 <= k < |txs| && txs[k].id != id ==> r[k] == txs[k]
    ensures forall k :: 0 <= k < |txs| && txs[k].id == id ==>
              r[k].pagamentoId == link && r[k].reconciliado == link.Some?
              && r[k].(reconciliado := txs[k].reconciliado, pagamentoId := txs[k].pagamentoId) == txs[k]
  {
    seq(|txs|, k requires 0 <= k < |txs| =>
      if txs[k].id == id then txs[k].(reconciliado := link.Some?, pagamentoId := link) else txs[k])
  }

  /** The method the manual link gives the payment. */
  function ManualMetodo(t: Transacao, p: Pagamento): Metodo
  {
    if ChequeTx(t) then ChequeMetodo
    else if t.metodo == Some(TransferenciaPlain) then TransferenciaPlain
    else p.metodo
  }

  /** The note the manual link appends. */
  function ManualNote(t: Transacao): string
  {
    if ChequeTx(t) then "Reconciliado com cheque nº " + t.chequeNumero.value
    else if t.metodo == Some(TransferenciaPlain) then "Reconciliado com transferência bancária"
    else "Reconciliado com extrato bancário"
  }

  /** The payment as the manual link writes it back. */
  function ManuallySettled(t: Transacao, p: Pagamento): (q: Pagamento)
    ensures q.id == p.id && q.estado == Pago && q.dataPagamento == Some(t.data)
    ensures q.metodo == ManualMetodo(t, p) && q.observacoes == AppendNote(p.observacoes, ManualNote(t))
  {
    p.(estado := Pago, dataPagamento := Some(t.data), metodo := ManualMetodo(t, p),
       observacoes := AppendNote(p.observacoes, ManualNote(t)))
  }

  /** In `fs`, every payment with `q`'s id in every supplier with the id is
      `q` up to its history, where `fs0` is the state before. */
  predicate RecordIn(fs0: seq<Fornecedor>, fs: seq<Fornecedor>, fornecedorId: string, q: Pagamento)
  {
    |fs| == |fs0|
    && forall i, k :: (0 <= i < |fs0| && fs0[i].id == fornecedorId && 0 <= k < |fs0[i].pagamentos|
                       && fs0[i].pagamentos[k].id == q.id) ==>
         |fs[i].pagamentos| == |fs0[i].pagamentos| && fs[i].pagamentos[k].(historico := q.historico) == q
  }

  /** `reconciliarManualmente`: links every transaction with the id to the
      payment, then, if that payment exists, marks it paid at the transaction
      date under the supplier id the caller gives, and clears a named cheque. */
  function ReconciliarManualmente(b: Books, transacaoId: string, pagamentoId: string, fornecedorId: string,
                                  actor: Actor, entryId: string, now: Date): (r: Books)
    ensures FindTransacao(b.txs, transacaoId).None? ==> r == b
    ensures FindTransacao(b.txs, transacaoId).Some? ==> r.txs == Relink(b.txs, transacaoId, Some(pagamentoId))
    ensures FindTransacao(b.txs, transacaoId).None? || FindLocated(AllPayments(b.fs), pagamentoId).None? ==>
              r.fs == b.fs && r.cheques == b.cheques
    ensures FindTransacao(b.txs, transacaoId).Some? && FindLocated(AllPayments(b.fs), pagamentoId).Some? ==>
              var t, p := FindTransacao(b.txs, transacaoId).value, FindLocated(AllPayments(b.fs), pagamentoId).value.p;
              RecordIn(b.fs, r.fs, fornecedorId, ManuallySettled(t, p))
              && r.fs == AtualizarPagamento(b.fs, fornecedorId, ManuallySettled(t, p), actor, entryId, now)
              && (ChequeTx(t) && Present(t.chequeId) ==> Compensated(r.cheques, t.chequeId.value))
              && (!(ChequeTx(t) && Present(t.chequeId)) ==> r.cheques == b.cheques)
  {
    match FindTransacao(b.txs, transacaoId)
    case None => b
    case Some(t) =>
      var txs := Relink(b.txs, transacaoId, Some(pagamentoId));
      match FindLocated(AllPayments(b.fs), pagamentoId)
      case None => Books(txs, b.fs, b.cheques)
      case Some(l) => ManualLink(b, txs, t, l.p, fornecedorId, actor, entryId, now)
  }

  /** The manual link once the transaction and the payment are found. */
  function ManualLink(b: Books, txs: seq<Transacao>, t: Transacao, p: Pagamento, fornecedorId: string,
                      actor: Actor, entryId: string, now: Date): (r: Books)
    ensures r.txs == txs
    ensures RecordIn(b.fs, r.fs, fornecedorId, ManuallySettled(t, p))
    ensures r.fs == AtualizarPagamento(b.fs, fornecedorId, ManuallySettled(t, p), actor, entryId, now)
    ensures ChequeTx(t) && Present(t.chequeId) ==> Compensated(r.cheques, t.chequeId.value)
    ensures !(ChequeTx(t) && Present(t.chequeId)) ==> r.cheques == b.cheques
  {
    var cheques := if ChequeTx(t) && Present(t.chequeId)
                   then AtualizarEstadoCheque(b.cheques, t.chequeId.value, Compensado, Some(t.data))
                   else b.cheques;
    var q := ManuallySettled(t, p);
    UpdateRecords(b.fs, fornecedorId, q, actor, entryId, now);
    Books(txs, AtualizarPagamento(b.fs, fornecedorId, q, actor, entryId, now), cheques)
  }

  /** Why `removerReconciliacao` does nothing: the transaction is missing,
      has no link, or its payment is gone. */
  predicate UnlinkRefused(b: Books, transacaoId: string)
  {
    var t := FindTransacao(b.txs, transacaoId);
    t.None? || !Present(t.value.pagamentoId) || FindLocated(AllPayments(b.fs), t.value.pagamentoId.value).None?
  }

  /** The payment the unlink writes back: pending, with no paid date. */
  function Reopened(p: Pagamento): (q: Pagamento)
    ensures q.estado == Pendente && q.dataPagamento.None?
    ensures q.(estado := p.estado, dataPagamento := p.dataPagamento) == p
  {
    p.(estado := Pendente, dataPagamento := None)
  }

  /** `removerReconciliacao`: unlinks every transaction with the id and puts
      the linked payment back to pending with no paid date, under the
      supplier that holds it. The cheque keeps its state. */
  function RemoverReconciliacao(b: Books, transacaoId: string, actor: Actor, entryId: string, now: Date): (r: Books)
    ensures r.cheques == b.cheques
    ensures UnlinkRefused(b, transacaoId) ==> r == b
    ensures !UnlinkRefused(b, transacaoId) ==>
              var l := FindLocated(AllPayments(b.fs), FindTransacao(b.txs, transacaoId).value.pagamentoId.value).value;
              r.txs == Relink(b.txs, transacaoId, None) && RecordIn(b.fs, r.fs, l.fornecedorId, Reopened(l.p))
              && r.fs == AtualizarPagamento(b.fs, l.fornecedorId, Reopened(l.p), actor, entryId, now)
  {
    if UnlinkRefused(b, transacaoId) then b
    else
      var t := FindTransacao(b.txs, transacaoId).value;
      var l := FindLocated(AllPayments(b.fs), t.pagamentoId.value).value;
      UpdateRecords(b.fs, l.fornecedorId, Reopened(l.p), actor, entryId, now);
      Books(Relink(b.txs, transacaoId, None), AtualizarPagamento(b.fs, l.fornecedorId, Reopened(l.p), actor, entryId, now), b.cheques)
  }

  // ---------------------------------------------------------------- lemmas

  /** A payment written back through `atualizarPagamento` as paid stays paid
      in its supplier, and nothing already paid is unpaid by it. */
  lemma UpdatePays(fs: seq<Fornecedor>, fornecedorId: string, q: Pagamento, actor: Actor, entryId: string, now: Date)
    requires q.estado == Pago
    ensures PaidIn(AtualizarPagamento(fs, fornecedorId, q, actor, entryId, now), fornecedorId, q.id)
    ensures forall fid, pid :: PaidIn(fs, fid, pid) ==> PaidIn(AtualizarPagamento(fs, fornecedorId, q, actor, entryId, now), fid, pid)
  {
    var r := AtualizarPagamento(fs, fornecedorId, q, actor, entryId, now);
    forall fid, pid | PaidIn(fs, fid, pid)
      ensures PaidIn(r, fid, pid)
    {
      forall i, k | 0 <= i < |r| && r[i].id == fid && 0 <= k < |r[i].pagamentos| && r[i].pagamentos[k].id == pid
        ensures r[i].pagamentos[k].estado == Pago
      {
        if fs[i].pagamentos[k].id != q.id {
        } else if FindFornecedor(fs, fornecedorId).None? {
        } else if fs[i].id != fornecedorId {
        }
      }
    }
  }

  /** `atualizarPagamento` writes its record into every matching slot. */
  lemma UpdateRecords(fs: seq<Fornecedor>, fornecedorId: string, q: Pagamento, actor: Actor, entryId: string, now: Date)
    ensures RecordIn(fs, AtualizarPagamento(fs, fornecedorId, q, actor, entryId, now), fornecedorId, q)
  {
    if FindFornecedor(fs, fornecedorId).None? {
      assert forall i :: 0 <= i < |fs| ==> fs[i].id != fornecedorId by {
        forall i | 0 <= i < |fs| ensures fs[i].id != fornecedorId {
          assert fs[i] in fs;
        }
      }
    }
  }

  /** Clearing a cheque clears it and leaves every cleared cheque cleared. */
  lemma ClearingKeeps(stored: Stored<Cheque>, t: Transacao, r: Stored<Cheque>)
    requires r == if Present(t.chequeId) then AtualizarEstadoCheque(stored, t.chequeId.value, Compensado, Some(t.data)) else stored
    ensures Present(t.chequeId) ==> Compensated(r, t.chequeId.value)
    ensures forall id :: Compensated(stored, id) ==> Compensated(r, id)
  {
  }

  /** Clearing the same cheque twice is the same as once. */
  lemma ClearingIdempotent(stored: Stored<Cheque>, chequeId: string, estado: ChequeEstado, data: Option<Date>)
    ensures var once := AtualizarEstadoCheque(stored, chequeId, estado, data);
            AtualizarEstadoCheque(once, chequeId, estado, data) == once
  {
    var once := AtualizarEstadoCheque(stored, chequeId, estado, data);
    if stored.Parsed? {
      var twice := AtualizarEstadoCheque(once, chequeId, estado, data);
      assert twice.items == once.items;
    }
  }

  /** Once a candidate is linked anywhere in the batch, a transaction with
      no path of its own, or whose path finds nothing, is left unmatched even
      when a candidate has exactly its amount. */
  lemma FallbackDisabledOnceLinked(cs: seq<Located>, t: Transacao, txs: seq<Transacao>)
    requires AnyLinked(cs, txs)
    requires Specific(t).None? || !SomeFit(cs, Specific(t).value)
    ensures FindMatch(cs, t, txs).None?
  {
  }

  /** With no candidate linked yet, any candidate of the same amount is
      enough for a match. */
  lemma FallbackFindsSameAmount(cs: seq<Located>, t: Transacao, txs: seq<Transacao>, k: nat)
    requires !AnyLinked(cs, txs)
    requires k < |cs| && SameAmount(cs[k].p.valor, t.valor)
    ensures FindMatch(cs, t, txs).Some?
  {
    assert Fits(cs[k], ByValue(t.valor));
  }

  /** The candidates are fixed before the walk, so two transfer debits of the
      same amount are both settled against the one open transfer invoice. */
  lemma StaleCandidatesSettleTwice(f: Fornecedor, t1: Transacao, t2: Transacao, cheques: Stored<Cheque>,
                                   actor: Actor, entryId: string, now: Date)
    requires |f.pagamentos| == 1 && Open(Located(f.pagamentos[0], f.id, f.nome))
    requires f.pagamentos[0].metodo == TransferenciaPlain
    requires Eligible(t1) && !ChequeTx(t1) && TransferText(t1.descricao) && SameAmount(f.pagamentos[0].valor, t1.valor)
    requires Eligible(t2) && !ChequeTx(t2) && TransferText(t2.descricao) && SameAmount(f.pagamentos[0].valor, t2.valor)
    ensures var r := ReconciliarAutomaticamente(Books([t1, t2], [f], cheques), actor, entryId, now);
            r.txs[0].pagamentoId == Some(f.pagamentos[0].id) && r.txs[1].pagamentoId == Some(f.pagamentos[0].id)
  {
    var l := Located(f.pagamentos[0], f.id, f.nome);
    assert AllPayments([f]) == [l] by {
      assert [f][..0] == [];
    }
    var cs := Candidates([l]);
    assert cs == [l] by {
      assert [l][1..] == [] && [l][0] == l && Open(l);
      assert Candidates([]) == [];
    }
    var b := Books([t1, t2], [f], cheques);
    assert Fits(l, ByTransfer(t1.valor)) && Fits(l, ByTransfer(t2.valor));
    var s1 := Step(cs, b, 0, actor, entryId, now);
    assert FindMatch(cs, t1, b.txs) == Some(l);
    assert s1.txs[1] == t2;
    var s2 := Step(cs, s1, 1, actor, entryId, now);
    assert FindMatch(cs, t2, s1.txs) == Some(l);
    assert Run(cs, b, 0, actor, entryId, now) == Run(cs, s1, 1, actor, entryId, now);
    assert Run(cs, s1, 1, actor, entryId, now) == Run(cs, s2, 2, actor, entryId, now);
  }

  /** What the flat list of payments becomes when one payment of one supplier
      is replaced by a record with the same id. */
  function Swap(l: Located, fornecedorId: string, pagamentoId: string, q: Pagamento): Located
  {
    if l.fornecedorId == fornecedorId && l.p.id == pagamentoId then l.(p := q) else l
  }

  lemma {:induction false} AllPaymentsSwap(fs: seq<Fornecedor>, gs: seq<Fornecedor>, fornecedorId: string, pagamentoId: string, q: Pagamento)
    requires |gs| == |fs|
    requires forall i :: 0 <= i < |fs| ==>
               gs[i].id == fs[i].id && gs[i].nome == fs[i].nome && |gs[i].pagamentos| == |fs[i].pagamentos|
    requires forall i, k :: 0 <= i < |fs| && 0 <= k < |fs[i].pagamentos| ==>
               gs[i].pagamentos[k] == if fs[i].id == fornecedorId && fs[i].pagamentos[k].id == pagamentoId then q else fs[i].pagamentos[k]
    ensures |AllPayments(gs)| == |AllPayments(fs)|
    ensures forall k :: 0 <= k < |AllPayments(fs)| ==> AllPayments(gs)[k] == Swap(AllPayments(fs)[k], fornecedorId, pagamentoId, q)
    decreases |fs|
  {
    if fs != [] {
      var n := |fs| - 1;
      AllPaymentsSwap(fs[..n], gs[..n], fornecedorId, pagamentoId, q);
      var a, b := AllPayments(fs[..n]), AllPayments(gs[..n]);
      var f, g := fs[n], gs[n];
      assert AllPayments(fs) == a + Tagged(f);
      assert AllPayments(gs) == b + Tagged(g);
    }
  }

  lemma {:induction false} FindLocatedSwap(all: seq<Located>, all2: seq<Located>, fornecedorId: string, q: Pagamento)
    requires |all2| == |all|
    requires forall k :: 0 <= k < |all| ==> all2[k] == Swap(all[k], fornecedorId, q.id, q)
    ensures FindLocated(all2, q.id) == match FindLocated(all, q.id) case None => None case Some(l) => Some(Swap(l, fornecedorId, q.id, q))
    decreases |all|
  {
    if all != [] {
      FindLocatedSwap(all[1..], all2[1..], fornecedorId, q);
    }
  }

  /** Updating the payment the flat list shows first for an id, under that
      payment's own supplier, keeps it first and shows the new record, with
      only its history extended. */
  lemma UpdateKeepsFirstShown(fs: seq<Fornecedor>, q: Pagamento, actor: Actor, entryId: string, now: Date)
    requires FindLocated(AllPayments(fs), q.id).Some?
    ensures var l := FindLocated(AllPayments(fs), q.id).value;
            var after := FindLocated(AllPayments(AtualizarPagamento(fs, l.fornecedorId, q, actor, entryId, now)), q.id);
            after.Some? && after.value.fornecedorId == l.fornecedorId && after.value.p.(historico := q.historico) == q
  {
    var l := FindLocated(AllPayments(fs), q.id).value;
    var fid := l.fornecedorId;
    var r := AtualizarPagamento(fs, fid, q, actor, entryId, now);
    var f :| f in fs && f.id == fid && l.p in f.pagamentos;
    var s := FindFornecedor(fs, fid);
    assert s.Some?;
    var prev := FindPagamento(s.value.pagamentos, q.id);
    var h := if prev.Some? then HistoryOf(prev.value) else [];
    var q2 := q.(historico := Some(h + [UpdateEntry(prev, q, actor, entryId, now)]));
    AllPaymentsSwap(fs, r, fid, q.id, q2);
    FindLocatedSwap(AllPayments(fs), AllPayments(r), fid, q2);
  }

  /** After relinking, the first transaction with the id carries the new link. */
  lemma RelinkFirst(txs: seq<Transacao>, id: string, link: Option<string>)
    requires FindTransacao(txs, id).Some?
    ensures FindTransacao(Relink(txs, id, link), id).Some?
    ensures FindTransacao(Relink(txs, id, link), id).value.pagamentoId == link
  {
    var r := Relink(txs, id, link);
    var k :| 0 <= k < |txs| && txs[k] == FindTransacao(txs, id).value;
    assert r[k].id == id;
    var t2 := FindTransacao(r, id);
    var j :| 0 <= j < |r| && r[j] == t2.value;
    assert r[j].id == id;
  }

  /** Relinking twice is relinking once with the second link. */
  lemma RelinkTwice(txs: seq<Transacao>, id: string, a: Option<string>, b: Option<string>)
    ensures Relink(Relink(txs, id, a), id, b) == Relink(txs, id, b)
  {
  }

  /** The manual link marks the payment it names paid, and the dashboard
      still shows that payment first, under the same supplier. */
  lemma ManualShowsPayment(b: Books, transacaoId: string, pagamentoId: string, actor: Actor, entryId: string, now: Date)
    requires FindTransacao(b.txs, transacaoId).Some?
    requires FindLocated(AllPayments(b.fs), pagamentoId).Some?
    ensures var l := FindLocated(AllPayments(b.fs), pagamentoId).value;
            var m := ReconciliarManualmente(b, transacaoId, pagamentoId, l.fornecedorId, actor, entryId, now);
            var shown := FindLocated(AllPayments(m.fs), pagamentoId);
            shown.Some? && shown.value.fornecedorId == l.fornecedorId && shown.value.p.estado == Pago
  {
    var l := FindLocated(AllPayments(b.fs), pagamentoId).value;
    var t := FindTransacao(b.txs, transacaoId).value;
    UpdateKeepsFirstShown(b.fs, ManuallySettled(t, l.p), actor, entryId, now);
  }

  /** Linking a transaction by hand and then removing that link leaves the
      transaction unlinked and the payment the dashboard shows for the id
      pending with no paid date. */
  lemma ReconcileThenUnreconcile(b: Books, transacaoId: string, pagamentoId: string,
                                 actor: Actor, entryId: string, now: Date, entryId2: string, now2: Date)
    requires FindTransacao(b.txs, transacaoId).Some?
    requires pagamentoId != ""
    requires FindLocated(AllPayments(b.fs), pagamentoId).Some?
    ensures var m := ReconciliarManualmente(b, transacaoId, pagamentoId, FindLocated(AllPayments(b.fs), pagamentoId).value.fornecedorId,
                                            actor, entryId, now);
            var u := RemoverReconciliacao(m, transacaoId, actor, entryId2, now2);
            var shown := FindLocated(AllPayments(u.fs), pagamentoId);
            u.txs == Relink(b.txs, transacaoId, None)
            && shown.Some? && shown.value.p.estado == Pendente && shown.value.p.dataPagamento.None?
  {
    var l := FindLocated(AllPayments(b.fs), pagamentoId).value;
    var m := ReconciliarManualmente(b, transacaoId, pagamentoId, l.fornecedorId, actor, entryId, now);
    ManualShowsPayment(b, transacaoId, pagamentoId, actor, entryId, now);
    RelinkFirst(b.txs, transacaoId, Some(pagamentoId));
    RelinkTwice(b.txs, transacaoId, Some(pagamentoId), None);
    var l2 := FindLocated(AllPayments(m.fs), pagamentoId).value;
    assert !UnlinkRefused(m, transacaoId);
    UpdateKeepsFirstShown(m.fs, Reopened(l2.p), actor, entryId2, now2);
  }
}
