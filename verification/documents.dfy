/**
 * Pending fiscal documents: paid payments whose required invoice-and-receipt
 * pair or sale document has not been received, split by document kind.
 */
module Documents {
  import opened Common
  import opened Domain
  import PA = PaymentActions

  /** A paid payment still waiting for its required document. Factura (the
      default) needs both the invoice and the receipt, Vd needs the sale
      document, Nenhum needs nothing. */
  predicate Awaiting(p: Pagamento)
  {
    p.estado == Pago
    && match PA.RequiredDocument(p)
       case Factura => !IsTrue(p.facturaRecebida) || !IsTrue(p.reciboRecebido)
       case Vd => !IsTrue(p.vdRecebido)
       case Nenhum => false
  }

  function AwaitingIn(all: seq<Located>): (r: seq<Located>)
    ensures |r| <= |all|
    ensures forall l :: l in r <==> l in all && Awaiting(l.p)
  {
    if all == [] then []
    else
      var rest := AwaitingIn(all[1..]);
      assert forall l :: l in all <==> l == all[0] || l in all[1..];
      if Awaiting(all[0].p) then [all[0]] + rest else rest
  }

  /** `pagamentosPendentesDocumentos`, in the order of the suppliers' lists. */
  function Pendentes(fs: seq<Fornecedor>): (r: seq<Located>)
    ensures forall l :: l in r <==> l in AllPayments(fs) && Awaiting(l.p)
    ensures forall l :: l in r ==> l.p.estado == Pago
  {
    AwaitingIn(AllPayments(fs))
  }

  /** `pagamentosFactura`: the entries whose requirement, defaulted, is factura. */
  function FacturaList(ls: seq<Located>): (r: seq<Located>)
    ensures forall l :: l in r <==> l in ls && PA.RequiredDocument(l.p) == Factura
  {
    if ls == [] then []
    else
      var rest := FacturaList(ls[1..]);
      assert forall l :: l in ls <==> l == ls[0] || l in ls[1..];
      if PA.RequiredDocument(ls[0].p) == Factura then [ls[0]] + rest else rest
  }

  /** `pagamentosVD`: the entries that explicitly require a sale document. */
  function VdList(ls: seq<Located>): (r: seq<Located>)
    ensures forall l :: l in r <==> l in ls && l.p.documentoRequerido == Some(Vd)
  {
    if ls == [] then []
    else
      var rest := VdList(ls[1..]);
      assert forall l :: l in ls <==> l == ls[0] || l in ls[1..];
      if ls[0].p.documentoRequerido == Some(Vd) then [ls[0]] + rest else rest
  }

  /** `pagamentosParaMostrar`: the tab "factura", then "vd", else everything. */
  function Mostrar(fs: seq<Fornecedor>, tab: string): (r: seq<Located>)
    ensures tab == "factura" ==> forall l :: l in r <==> l in Pendentes(fs) && PA.RequiredDocument(l.p) == Factura
    ensures tab != "factura" && tab == "vd" ==> forall l :: l in r <==> l in Pendentes(fs) && l.p.documentoRequerido == Some(Vd)
    ensures tab != "factura" && tab != "vd" ==> r == Pendentes(fs)
  {
    var all := Pendentes(fs);
    if tab == "factura" then FacturaList(all) else if tab == "vd" then VdList(all) else all
  }

  // ---------------------------------------------------------------- lemmas

  /** Every pending entry lands in exactly one of the two kind lists, so their
      counts add up to the pending count. */
  lemma {:induction false} KindsPartition(ls: seq<Located>)
    requires forall l :: l in ls ==> Awaiting(l.p)
    ensures |FacturaList(ls)| + |VdList(ls)| == |ls|
    decreases |ls|
  {
    if ls != [] {
      assert ls[0] in ls;
      assert forall l :: l in ls[1..] ==> l in ls;
      KindsPartition(ls[1..]);
    }
  }

  lemma PendingCountsAddUp(fs: seq<Fornecedor>)
    ensures |Mostrar(fs, "factura")| + |Mostrar(fs, "vd")| == |Mostrar(fs, "todos")|
  {
    KindsPartition(Pendentes(fs));
  }

  /** The pending filter works piecewise over a concatenation; with
      `AwaitingInSingle`, the pending entries keep their order and
      multiplicity. */
  lemma {:induction false} AwaitingInAppend(a: seq<Located>, b: seq<Located>)
    ensures AwaitingIn(a + b) == AwaitingIn(a) + AwaitingIn(b)
    decreases |a|
  {
    if a == [] {
      assert a + b == b;
    } else {
      assert (a + b)[0] == a[0] && (a + b)[1..] == a[1..] + b;
      AwaitingInAppend(a[1..], b);
    }
  }

  lemma AwaitingInSingle(l: Located)
    ensures AwaitingIn([l]) == if Awaiting(l.p) then [l] else []
  {
    assert [l][1..] == [];
  }

  /** The pending list of a concatenation of suppliers is the first part's
      followed by the second's; a supplier holding one payment lists it
      exactly when it awaits its document. */
  lemma PendentesAppend(a: seq<Fornecedor>, b: seq<Fornecedor>)
    ensures Pendentes(a + b) == Pendentes(a) + Pendentes(b)
  {
    AllPaymentsAppend(a, b);
    AwaitingInAppend(AllPayments(a), AllPayments(b));
  }

  lemma PendentesSingle(id: string, nome: string, p: Pagamento)
    ensures Pendentes([Fornecedor(id, nome, [p])]) == if Awaiting(p) then [Located(p, id, nome)] else []
  {
    var l, f := Located(p, id, nome), Fornecedor(id, nome, [p]);
    var all := AllPayments([f]);
    assert all == [l] by {
      AllPaymentsSingle(f);
    }
    assert Pendentes([f]) == AwaitingIn(all);
    AwaitingInSingle(l);
  }

  /** The factura tab works piecewise over a concatenation, in order. */
  lemma {:induction false} FacturaListAppend(a: seq<Located>, b: seq<Located>)
    ensures FacturaList(a + b) == FacturaList(a) + FacturaList(b)
    decreases |a|
  {
    if a == [] {
      assert a + b == b;
    } else {
      assert (a + b)[0] == a[0] && (a + b)[1..] == a[1..] + b;
      FacturaListAppend(a[1..], b);
    }
  }

  lemma FacturaListSingle(l: Located)
    ensures FacturaList([l]) == if PA.RequiredDocument(l.p) == Factura then [l] else []
  {
    assert [l][1..] == [];
  }

  /** The sale-document tab works piecewise over a concatenation, in order. */
  lemma {:induction false} VdListAppend(a: seq<Located>, b: seq<Located>)
    ensures VdList(a + b) == VdList(a) + VdList(b)
    decreases |a|
  {
    if a == [] {
      assert a + b == b;
    } else {
      assert (a + b)[0] == a[0] && (a + b)[1..] == a[1..] + b;
      VdListAppend(a[1..], b);
    }
  }

  lemma VdListSingle(l: Located)
    ensures VdList([l]) == if l.p.documentoRequerido == Some(Vd) then [l] else []
  {
    assert [l][1..] == [];
  }

  /** Receiving the required documents clears a paid payment: both the
      invoice and the receipt for a factura, the sale document for a vd. */
  lemma ReceivedClears(p: Pagamento)
    requires PA.RequiredDocument(p) == Factura ==> p.facturaRecebida == Some(true) && p.reciboRecebido == Some(true)
    requires PA.RequiredDocument(p) == Vd ==> p.vdRecebido == Some(true)
    ensures !Awaiting(p)
  {
  }

  /** Missing either half of a factura's pair keeps a paid payment pending. */
  lemma FacturaHalfAwaits(p: Pagamento)
    requires p.estado == Pago && PA.RequiredDocument(p) == Factura
    requires p.facturaRecebida != Some(true) || p.reciboRecebido != Some(true)
    ensures Awaiting(p)
  {
  }

  /** A payment marked paid from the payments table that needs a factura or a
      sale document shows up as pending, since marking resets its flags. */
  lemma MarkedPaidAwaits(p: Pagamento, now: Date)
    requires PA.RequiredDocument(p) != Nenhum
    ensures Awaiting(PA.MarkedPaid(p, now))
  {
    assert PA.RequiredDocument(PA.MarkedPaid(p, now)) == PA.RequiredDocument(p);
  }

  /** A payment that needs nothing, or is not paid, is never pending. */
  lemma NeverAwaiting(p: Pagamento)
    requires p.estado != Pago || PA.RequiredDocument(p) == Nenhum
    ensures !Awaiting(p)
  {
  }
}
