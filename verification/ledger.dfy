/**
 * The payment ledger of the application context: adding, updating, removing
 * and moving a supplier's payments, each change stamped with an audit-history
 * entry, and the history lookup by payment id.
 */
module Ledger {
  import opened Common
  import opened Domain

  /** Who the history says made a change. */
  datatype Actor = Actor(userId: string, username: string)

  /** `currentUser?.id || "1"` and `currentUser?.fullName || currentUser?.username || "Admin User"`. */
  function ActorOf(current: Option<User>): (a: Actor)
    ensures a.userId != "" && a.username != ""
    ensures current.None? ==> a == Actor("1", "Admin User")
    ensures current.Some? && current.value.id != "" ==> a.userId == current.value.id
    ensures current.Some? && current.value.fullName != "" ==> a.username == current.value.fullName
    ensures current.Some? && current.value.fullName == "" && current.value.username != "" ==> a.username == current.value.username
  {
    match current
    case None => Actor("1", "Admin User")
    case Some(u) =>
      Actor(if u.id != "" then u.id else "1",
            if u.fullName != "" then u.fullName else if u.username != "" then u.username else "Admin User")
  }

  /** The history entry written when a payment is created. */
  function CreateEntry(p: Pagamento, actor: Actor, entryId: string, now: Date): HistoryEntry
  {
    HistoryEntry(entryId, now, actor.userId, actor.username, Create, "payment", p.id,
                 "Pagamento criado: " + p.referencia, None, Some(p))
  }

  /** The history entry written when `prev` is replaced by `p`. */
  function UpdateEntry(prev: Option<Pagamento>, p: Pagamento, actor: Actor, entryId: string, now: Date): HistoryEntry
  {
    HistoryEntry(entryId, now, actor.userId, actor.username, Update, "payment", p.id,
                 "Pagamento atualizado: " + p.referencia, prev, Some(p))
  }

  /** A payment's history, with an absent history read as empty. */
  function HistoryOf(p: Pagamento): seq<HistoryEntry>
  {
    if p.historico.Some? then p.historico.value else []
  }

  /** The payment as `adicionarPagamento` stores it: its history is the single create entry. */
  function Created(p: Pagamento, actor: Actor, entryId: string, now: Date): (q: Pagamento)
    ensures q == p.(historico := Some([CreateEntry(p, actor, entryId, now)]))
  {
    p.(historico := Some([CreateEntry(p, actor, entryId, now)]))
  }

  /** The list without the payments that carry the id, the others kept in order. */
  function Without(ps: seq<Pagamento>, id: string): (r: seq<Pagamento>)
    ensures |r| <= |ps|
    ensures forall q :: q in r <==> q in ps && q.id != id
    ensures (forall q :: q in ps ==> q.id != id) ==> r == ps
  {
    if ps == [] then []
    else if ps[0].id == id then Without(ps[1..], id)
    else [ps[0]] + Without(ps[1..], id)
  }

  /** The list with every payment that carries the id replaced by `q`, in place. */
  function ReplaceById(ps: seq<Pagamento>, id: string, q: Pagamento): (r: seq<Pagamento>)
    ensures |r| == |ps|
    ensures forall k :: 0 <= k < |ps| ==> r[k] == if ps[k].id == id then q else ps[k]
  {
    seq(|ps|, k requires 0 <= k < |ps| => if ps[k].id == id then q else ps[k])
  }

  /** No two payments of the list share an id. */
  predicate UniquePaymentIds(ps: seq<Pagamento>)
  {
    forall i, j :: 0 <= i < j < |ps| ==> ps[i].id != ps[j].id
  }

  /** No two suppliers share an id. */
  predicate UniqueSupplierIds(fs: seq<Fornecedor>)
  {
    forall i, j :: 0 <= i < j < |fs| ==> fs[i].id != fs[j].id
  }

  /** `adicionarPagamento`: every supplier with the id receives the payment, last,
      with a fresh one-entry history; the others are untouched. */
  function AdicionarPagamento(fs: seq<Fornecedor>, fornecedorId: string, p: Pagamento,
                              actor: Actor, entryId: string, now: Date): (r: seq<Fornecedor>)
    ensures |r| == |fs|
    ensures forall i :: 0 <= i < |fs| ==> r[i].id == fs[i].id && r[i].nome == fs[i].nome
    ensures forall i :: 0 <= i < |fs| && fs[i].id != fornecedorId ==> r[i] == fs[i]
    ensures forall i :: 0 <= i < |fs| && fs[i].id == fornecedorId ==>
              r[i].pagamentos == fs[i].pagamentos + [Created(p, actor, entryId, now)]
    ensures (forall f :: f in fs ==> f.id != fornecedorId) ==> r == fs
  {
    var q := Created(p, actor, entryId, now);
    seq(|fs|, i requires 0 <= i < |fs| =>
      if fs[i].id == fornecedorId then fs[i].(pagamentos := fs[i].pagamentos + [q]) else fs[i])
  }

  /** `atualizarPagamento`: with the supplier found, every payment with the id in
      every supplier with that id becomes `p` carrying the history of the first
      such payment of the first such supplier, extended by one update entry. */
  function AtualizarPagamento(fs: seq<Fornecedor>, fornecedorId: string, p: Pagamento,
                              actor: Actor, entryId: string, now: Date): (r: seq<Fornecedor>)
    ensures FindFornecedor(fs, fornecedorId).None? ==> r == fs
    ensures |r| == |fs|
    ensures forall i :: 0 <= i < |fs| ==> r[i].id == fs[i].id && r[i].nome == fs[i].nome
    ensures forall i :: 0 <= i < |fs| && fs[i].id != fornecedorId ==> r[i] == fs[i]
    ensures forall i :: 0 <= i < |fs| ==> |r[i].pagamentos| == |fs[i].pagamentos|
    ensures forall i, k :: 0 <= i < |fs| && 0 <= k < |fs[i].pagamentos| && fs[i].pagamentos[k].id != p.id ==>
              r[i].pagamentos[k] == fs[i].pagamentos[k]
    ensures FindFornecedor(fs, fornecedorId).Some? ==>
              var prev := FindPagamento(FindFornecedor(fs, fornecedorId).value.pagamentos, p.id);
              var h := if prev.Some? then HistoryOf(prev.value) else [];
              forall i, k :: 0 <= i < |fs| && fs[i].id == fornecedorId && 0 <= k < |fs[i].pagamentos| && fs[i].pagamentos[k].id == p.id ==>
                r[i].pagamentos[k] == p.(historico := Some(h + [UpdateEntry(prev, p, actor, entryId, now)]))
  {
    match FindFornecedor(fs, fornecedorId)
    case None => fs
    case Some(f) =>
      var prev := FindPagamento(f.pagamentos, p.id);
      var h := if prev.Some? then HistoryOf(prev.value) else [];
      var q := p.(historico := Some(h + [UpdateEntry(prev, p, actor, entryId, now)]));
      seq(|fs|, i requires 0 <= i < |fs| =>
        if fs[i].id == fornecedorId then fs[i].(pagamentos := ReplaceById(fs[i].pagamentos, p.id, q)) else fs[i])
  }

  /** `removerPagamento`: drops the payment id from every supplier with the id.
      The deletion entry it builds is only logged, so no history survives. */
  function RemoverPagamento(fs: seq<Fornecedor>, fornecedorId: string, pagamentoId: string): (r: seq<Fornecedor>)
    ensures |r| == |fs|
    ensures forall i :: 0 <= i < |fs| ==> r[i].id == fs[i].id && r[i].nome == fs[i].nome
    ensures forall i :: 0 <= i < |fs| && fs[i].id != fornecedorId ==> r[i] == fs[i]
    ensures forall i :: 0 <= i < |fs| && fs[i].id == fornecedorId ==>
              forall q :: q in r[i].pagamentos <==> q in fs[i].pagamentos && q.id != pagamentoId
    ensures forall i :: 0 <= i < |fs| && fs[i].id == fornecedorId ==> r[i].pagamentos == Without(fs[i].pagamentos, pagamentoId)
  {
    match FindFornecedor(fs, fornecedorId)
    case None => fs
    case Some(_) =>
      seq(|fs|, i requires 0 <= i < |fs| =>
        if fs[i].id == fornecedorId then fs[i].(pagamentos := Without(fs[i].pagamentos, pagamentoId)) else fs[i])
  }

  /** `moverPagamento`: with both suppliers and the payment present, the origin
      loses the payment and the destination receives the origin's copy last.
      The origin branch is checked first, so a move to the same supplier only removes. */
  function MoverPagamento(fs: seq<Fornecedor>, pagamentoId: string, origemId: string, destinoId: string): (r: seq<Fornecedor>)
    ensures FindFornecedor(fs, origemId).None? || FindFornecedor(fs, destinoId).None? ==> r == fs
    ensures FindFornecedor(fs, origemId).Some? && FindPagamento(FindFornecedor(fs, origemId).value.pagamentos, pagamentoId).None? ==> r == fs
    ensures |r| == |fs|
    ensures forall i :: 0 <= i < |fs| ==> r[i].id == fs[i].id && r[i].nome == fs[i].nome
    ensures forall i :: 0 <= i < |fs| && fs[i].id != origemId && fs[i].id != destinoId ==> r[i] == fs[i]
    ensures FindFornecedor(fs, origemId).Some? && FindFornecedor(fs, destinoId).Some?
            && FindPagamento(FindFornecedor(fs, origemId).value.pagamentos, pagamentoId).Some? ==>
              var pag := FindPagamento(FindFornecedor(fs, origemId).value.pagamentos, pagamentoId).value;
              (forall i :: 0 <= i < |fs| && fs[i].id == origemId ==> r[i].pagamentos == Without(fs[i].pagamentos, pagamentoId))
              && (forall i :: 0 <= i < |fs| && fs[i].id == destinoId && fs[i].id != origemId ==>
                    r[i].pagamentos == fs[i].pagamentos + [pag])
  {
    match FindFornecedor(fs, origemId)
    case None => fs
    case Some(origem) =>
      if FindFornecedor(fs, destinoId).None? then fs
      else match FindPagamento(origem.pagamentos, pagamentoId)
        case None => fs
        case Some(pag) =>
          seq(|fs|, i requires 0 <= i < |fs| =>
            if fs[i].id == origemId then fs[i].(pagamentos := Without(fs[i].pagamentos, pagamentoId))
            else if fs[i].id == destinoId then fs[i].(pagamentos := fs[i].pagamentos + [pag])
            else fs[i])
  }

  /** `getHistoryForEntity`: for a payment, the history of the first supplier's
      first payment with that id that has a history; otherwise empty. */
  function GetHistoryForEntity(fs: seq<Fornecedor>, entityType: string, entityId: string): (r: seq<HistoryEntry>)
    ensures entityType != "payment" ==> r == []
    ensures r != [] ==> exists f, q :: f in fs && q in f.pagamentos && q.id == entityId && q.historico == Some(r)
    ensures (forall i :: 0 <= i < |fs| ==> !HasHistory(fs[i], entityId)) ==> r == []
    ensures entityType == "payment" ==>
              forall i :: 0 <= i < |fs| && HasHistory(fs[i], entityId) && (forall j :: 0 <= j < i ==> !HasHistory(fs[j], entityId)) ==>
                r == FindPagamento(fs[i].pagamentos, entityId).value.historico.value
  {
    if entityType != "payment" then [] else FirstHistory(fs, entityId)
  }

  /** Whether the supplier's first payment with the id exists and has a history. */
  predicate HasHistory(f: Fornecedor, id: string)
  {
    var q := FindPagamento(f.pagamentos, id);
    q.Some? && q.value.historico.Some?
  }

  /** The history of the first supplier whose first payment with the id has
      one; empty when no supplier's has. */
  function FirstHistory(fs: seq<Fornecedor>, id: string): (r: seq<HistoryEntry>)
    ensures r != [] ==> exists f, q :: f in fs && q in f.pagamentos && q.id == id && q.historico == Some(r)
    ensures (forall f :: f in fs ==> FindPagamento(f.pagamentos, id).None?) ==> r == []
    ensures (forall i :: 0 <= i < |fs| ==> !HasHistory(fs[i], id)) ==> r == []
    ensures forall i :: 0 <= i < |fs| && HasHistory(fs[i], id) && (forall j :: 0 <= j < i ==> !HasHistory(fs[j], id)) ==>
              r == FindPagamento(fs[i].pagamentos, id).value.historico.value
  {
    if fs == [] then []
    else
      var found := FindPagamento(fs[0].pagamentos, id);
      if found.Some? && found.value.historico.Some? then found.value.historico.value
      else
        assert forall j :: 0 <= j < |fs[1..]| ==> fs[1..][j] == fs[j + 1];
        FirstHistory(fs[1..], id)
  }

  /** The routing at the end of the payment-edit dialog: a change of supplier is
      a removal from the old one followed by an addition to the new one; otherwise
      an update in place. */
  function EditRouting(fs: seq<Fornecedor>, oldId: string, newId: string, p: Pagamento,
                       actor: Actor, entryId: string, now: Date): (r: seq<Fornecedor>)
    ensures |r| == |fs|
    ensures forall i :: 0 <= i < |fs| ==> r[i].id == fs[i].id && r[i].nome == fs[i].nome
    ensures forall i :: 0 <= i < |fs| && fs[i].id != oldId && fs[i].id != newId ==> r[i] == fs[i]
    ensures oldId != newId ==>
              (forall i :: 0 <= i < |fs| && fs[i].id == oldId ==> r[i].pagamentos == Without(fs[i].pagamentos, p.id))
              && (forall i :: 0 <= i < |fs| && fs[i].id == newId ==>
                    r[i].pagamentos == fs[i].pagamentos + [Created(p, actor, entryId, now)])
    ensures oldId == newId ==>
              forall i, k :: 0 <= i < |fs| && 0 <= k < |fs[i].pagamentos| ==>
                |r[i].pagamentos| == |fs[i].pagamentos|
                && (fs[i].pagamentos[k].id != p.id ==> r[i].pagamentos[k] == fs[i].pagamentos[k])
                && (fs[i].id == newId && fs[i].pagamentos[k].id == p.id ==> r[i].pagamentos[k].(historico := p.historico) == p)
  {
    if oldId != newId then AdicionarPagamento(RemoverPagamento(fs, oldId, p.id), newId, p, actor, entryId, now)
    else AtualizarPagamento(fs, newId, p, actor, entryId, now)
  }

  // ---------------------------------------------------------------- lemmas

  /** Removal works piecewise over a concatenation; with `WithoutSingle`, the
      survivors keep their order and their multiplicity. */
  lemma {:induction false} WithoutAppend(a: seq<Pagamento>, b: seq<Pagamento>, id: string)
    ensures Without(a + b, id) == Without(a, id) + Without(b, id)
    decreases |a|
  {
    if a == [] {
      assert a + b == b;
    } else {
      assert (a + b)[0] == a[0] && (a + b)[1..] == a[1..] + b;
      WithoutAppend(a[1..], b, id);
    }
  }

  /** A single payment is kept exactly when its id differs. */
  lemma WithoutSingle(x: Pagamento, id: string)
    ensures Without([x], id) == if x.id == id then [] else [x]
  {
    assert [x][1..] == [];
  }

  lemma {:induction false} WithoutAppendOther(ps: seq<Pagamento>, x: Pagamento, id: string)
    requires x.id == id
    ensures Without(ps + [x], id) == Without(ps, id)
    decreases |ps|
  {
    if ps == [] {
      assert [x][1..] == [];
    } else {
      assert (ps + [x])[1..] == ps[1..] + [x];
      WithoutAppendOther(ps[1..], x, id);
    }
  }

  /** Adding a payment whose id the supplier does not yet hold, then removing
      that id from the same supplier, restores the ledger. */
  lemma AddThenRemove(fs: seq<Fornecedor>, fornecedorId: string, p: Pagamento,
                      actor: Actor, entryId: string, now: Date)
    requires forall f :: f in fs && f.id == fornecedorId ==> forall q :: q in f.pagamentos ==> q.id != p.id
    ensures RemoverPagamento(AdicionarPagamento(fs, fornecedorId, p, actor, entryId, now), fornecedorId, p.id) == fs
  {
    var a := AdicionarPagamento(fs, fornecedorId, p, actor, entryId, now);
    var r := RemoverPagamento(a, fornecedorId, p.id);
    forall i | 0 <= i < |fs| && fs[i].id == fornecedorId
      ensures Without(a[i].pagamentos, p.id) == fs[i].pagamentos
    {
      assert fs[i] in fs;
      WithoutAppendOther(fs[i].pagamentos, Created(p, actor, entryId, now), p.id);
    }
    assert |r| == |fs|;
    forall i | 0 <= i < |fs|
      ensures r[i] == fs[i]
    {
      if fs[i].id == fornecedorId {
        assert FindFornecedor(a, fornecedorId).Some? by {
          assert a[i] in a;
        }
      }
    }
  }

  /** `TotalPayments` only sees the sizes of the suppliers' lists. */
  lemma {:induction false} TotalPaymentsUpdate(fs: seq<Fornecedor>, i: int, g: Fornecedor)
    requires 0 <= i < |fs|
    ensures TotalPayments(fs[i := g]) == TotalPayments(fs) - |fs[i].pagamentos| + |g.pagamentos|
    decreases |fs|
  {
    var n := |fs| - 1;
    if i == n {
      assert fs[i := g][..n] == fs[..n];
    } else {
      assert fs[i := g][..n] == fs[..n][i := g];
      TotalPaymentsUpdate(fs[..n], i, g);
    }
  }

  lemma {:induction false} WithoutUniqueLength(ps: seq<Pagamento>, id: string)
    requires UniquePaymentIds(ps)
    requires exists q :: q in ps && q.id == id
    ensures |Without(ps, id)| == |ps| - 1
    decreases |ps|
  {
    if ps[0].id == id {
      assert forall q :: q in ps[1..] ==> q.id != id by {
        forall q | q in ps[1..] ensures q.id != id {
          var k :| 0 <= k < |ps[1..]| && ps[1..][k] == q;
          assert ps[k + 1] == q;
        }
      }
    } else {
      var q :| q in ps && q.id == id;
      assert q in ps[1..];
      WithoutUniqueLength(ps[1..], id);
    }
  }

  lemma FindFornecedorIndex(fs: seq<Fornecedor>, id: string) returns (k: int)
    requires FindFornecedor(fs, id).Some?
    ensures 0 <= k < |fs| && fs[k] == FindFornecedor(fs, id).value
  {
    k :| 0 <= k < |fs| && fs[k] == FindFornecedor(fs, id).value;
  }

  /** Moving a payment between two distinct suppliers, with supplier ids unique
      and the payment id unique in the origin, keeps the number of payments and
      places the payment last in the destination. */
  lemma MovePreservesCount(fs: seq<Fornecedor>, pagamentoId: string, origemId: string, destinoId: string)
    requires origemId != destinoId
    requires UniqueSupplierIds(fs)
    requires FindFornecedor(fs, origemId).Some? && FindFornecedor(fs, destinoId).Some?
    requires UniquePaymentIds(FindFornecedor(fs, origemId).value.pagamentos)
    requires FindPagamento(FindFornecedor(fs, origemId).value.pagamentos, pagamentoId).Some?
    ensures TotalPayments(MoverPagamento(fs, pagamentoId, origemId, destinoId)) == TotalPayments(fs)
    ensures forall i :: 0 <= i < |fs| && fs[i].id == destinoId ==>
              var ps := MoverPagamento(fs, pagamentoId, origemId, destinoId)[i].pagamentos;
              ps != [] && ps[|ps| - 1].id == pagamentoId
  {
    MoveCount(fs, pagamentoId, origemId, destinoId);
    MovePlacesLast(fs, pagamentoId, origemId, destinoId);
  }

  lemma MoveCount(fs: seq<Fornecedor>, pagamentoId: string, origemId: string, destinoId: string)
    requires origemId != destinoId
    requires UniqueSupplierIds(fs)
    requires FindFornecedor(fs, origemId).Some? && FindFornecedor(fs, destinoId).Some?
    requires UniquePaymentIds(FindFornecedor(fs, origemId).value.pagamentos)
    requires FindPagamento(FindFornecedor(fs, origemId).value.pagamentos, pagamentoId).Some?
    ensures TotalPayments(MoverPagamento(fs, pagamentoId, origemId, destinoId)) == TotalPayments(fs)
  {
    var r := MoverPagamento(fs, pagamentoId, origemId, destinoId);
    var o := FindFornecedorIndex(fs, origemId);
    var d := FindFornecedorIndex(fs, destinoId);
    var pag := FindPagamento(fs[o].pagamentos, pagamentoId).value;
    var a := fs[o].(pagamentos := Without(fs[o].pagamentos, pagamentoId));
    var b := fs[d].(pagamentos := fs[d].pagamentos + [pag]);
    WithoutUniqueLength(fs[o].pagamentos, pagamentoId);
    MoveIsTwoUpdates(fs, pagamentoId, origemId, destinoId, o, d, pag);
    TotalPaymentsUpdate(fs, o, a);
    TotalPaymentsUpdate(fs[o := a], d, b);
  }

  lemma MoveIsTwoUpdates(fs: seq<Fornecedor>, pagamentoId: string, origemId: string, destinoId: string,
                         o: nat, d: nat, pag: Pagamento)
    requires origemId != destinoId
    requires UniqueSupplierIds(fs)
    requires o < |fs| && FindFornecedor(fs, origemId) == Some(fs[o])
    requires d < |fs| && FindFornecedor(fs, destinoId) == Some(fs[d])
    requires FindPagamento(fs[o].pagamentos, pagamentoId) == Some(pag)
    ensures MoverPagamento(fs, pagamentoId, origemId, destinoId)
              == fs[o := fs[o].(pagamentos := Without(fs[o].pagamentos, pagamentoId))]
                   [d := fs[d].(pagamentos := fs[d].pagamentos + [pag])]
  {
    var r := MoverPagamento(fs, pagamentoId, origemId, destinoId);
    var t := fs[o := fs[o].(pagamentos := Without(fs[o].pagamentos, pagamentoId))]
               [d := fs[d].(pagamentos := fs[d].pagamentos + [pag])];
    forall i | 0 <= i < |fs|
      ensures r[i] == t[i]
    {
      assert fs[o].id == origemId && fs[d].id == destinoId;
      if fs[i].id == origemId {
        assert i == o;
      } else if fs[i].id == destinoId {
        assert i == d;
      } else {
        assert i != o && i != d;
      }
    }
  }

  lemma MovePlacesLast(fs: seq<Fornecedor>, pagamentoId: string, origemId: string, destinoId: string)
    requires origemId != destinoId
    requires FindFornecedor(fs, origemId).Some? && FindFornecedor(fs, destinoId).Some?
    requires FindPagamento(FindFornecedor(fs, origemId).value.pagamentos, pagamentoId).Some?
    ensures forall i :: 0 <= i < |fs| && fs[i].id == destinoId ==>
              var ps := MoverPagamento(fs, pagamentoId, origemId, destinoId)[i].pagamentos;
              ps != [] && ps[|ps| - 1].id == pagamentoId
  {
  }

  /** A move with origin equal to destination, the payment present, drops it. */
  lemma MoveToSameSupplierDrops(fs: seq<Fornecedor>, pagamentoId: string, id: string)
    requires FindFornecedor(fs, id).Some?
    requires FindPagamento(FindFornecedor(fs, id).value.pagamentos, pagamentoId).Some?
    ensures forall i, q :: 0 <= i < |fs| && fs[i].id == id && q in MoverPagamento(fs, pagamentoId, id, id)[i].pagamentos ==>
              q.id != pagamentoId
  {
  }

  /** Changing a payment's supplier in the edit dialog discards its history:
      the copy in the new supplier carries only the create entry. */
  lemma EditToOtherSupplierResetsHistory(fs: seq<Fornecedor>, oldId: string, newId: string, p: Pagamento,
                                         actor: Actor, entryId: string, now: Date)
    requires oldId != newId
    ensures forall i :: 0 <= i < |fs| && fs[i].id == newId ==>
              var ps := EditRouting(fs, oldId, newId, p, actor, entryId, now)[i].pagamentos;
              ps != [] && ps[|ps| - 1].id == p.id && HistoryOf(ps[|ps| - 1]) == [CreateEntry(p, actor, entryId, now)]
  {
  }

  /** Updating keeps the earlier history of the first matching payment as a
      prefix and adds exactly one update entry. */
  lemma UpdateExtendsHistory(fs: seq<Fornecedor>, fornecedorId: string, p: Pagamento,
                             actor: Actor, entryId: string, now: Date, i: int, k: int)
    requires FindFornecedor(fs, fornecedorId).Some? && 0 <= i < |fs| && fs[i] == FindFornecedor(fs, fornecedorId).value
    requires FindPagamento(fs[i].pagamentos, p.id).Some?
    requires 0 <= k < |fs[i].pagamentos| && fs[i].pagamentos[k] == FindPagamento(fs[i].pagamentos, p.id).value
    ensures var h := HistoryOf(AtualizarPagamento(fs, fornecedorId, p, actor, entryId, now)[i].pagamentos[k]);
            |h| == |HistoryOf(fs[i].pagamentos[k])| + 1
            && h[..|h| - 1] == HistoryOf(fs[i].pagamentos[k])
            && h[|h| - 1].action == Update && h[|h| - 1].previousState == Some(fs[i].pagamentos[k])
  {
    var prev := fs[i].pagamentos[k];
    var e := UpdateEntry(Some(prev), p, actor, entryId, now);
    var h := HistoryOf(AtualizarPagamento(fs, fornecedorId, p, actor, entryId, now)[i].pagamentos[k]);
    assert h == HistoryOf(prev) + [e];
    assert h[..|h| - 1] == HistoryOf(prev);
  }

  /** After adding a payment whose id no supplier holds yet, to a supplier that
      exists, its history reads back as the single create entry. */
  lemma HistoryAfterAdd(fs: seq<Fornecedor>, fornecedorId: string, p: Pagamento,
                        actor: Actor, entryId: string, now: Date)
    requires exists f :: f in fs && f.id == fornecedorId
    requires forall f, q :: f in fs && q in f.pagamentos ==> q.id != p.id
    ensures GetHistoryForEntity(AdicionarPagamento(fs, fornecedorId, p, actor, entryId, now), "payment", p.id)
            == [CreateEntry(p, actor, entryId, now)]
  {
    var a := AdicionarPagamento(fs, fornecedorId, p, actor, entryId, now);
    var c := Created(p, actor, entryId, now);
    forall i | 0 <= i < |a|
      ensures FindPagamento(a[i].pagamentos, p.id) in {None, Some(c)}
    {
      assert fs[i] in fs;
      if fs[i].id == fornecedorId {
        FindAppendedLast(fs[i].pagamentos, c);
      }
    }
    var f :| f in fs && f.id == fornecedorId;
    var j :| 0 <= j < |fs| && fs[j] == f;
    assert FindPagamento(a[j].pagamentos, p.id) == Some(c) by {
      FindAppendedLast(fs[j].pagamentos, c);
    }
    FirstHistoryFound(a, p.id, c, j);
  }

  /** If every supplier's first payment with the id is either absent or `c`,
      and some supplier's is `c`, the history lookup returns `c`'s history. */
  lemma {:induction false} FirstHistoryFound(a: seq<Fornecedor>, id: string, c: Pagamento, j: int)
    requires c.historico.Some?
    requires 0 <= j < |a| && FindPagamento(a[j].pagamentos, id) == Some(c)
    requires forall i :: 0 <= i < |a| ==> FindPagamento(a[i].pagamentos, id) in {None, Some(c)}
    ensures FirstHistory(a, id) == c.historico.value
    decreases |a|
  {
    if FindPagamento(a[0].pagamentos, id) == None {
      assert forall i :: 0 <= i < |a[1..]| ==> a[1..][i] == a[i + 1];
      FirstHistoryFound(a[1..], id, c, j - 1);
    }
  }

  lemma {:induction false} FindAppendedLast(ps: seq<Pagamento>, c: Pagamento)
    requires forall q :: q in ps ==> q.id != c.id
    ensures FindPagamento(ps + [c], c.id) == Some(c)
    decreases |ps|
  {
    if ps == [] {
    } else {
      assert (ps + [c])[1..] == ps[1..] + [c];
      FindAppendedLast(ps[1..], c);
    }
  }
}
