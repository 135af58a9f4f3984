/**
 * The revenue ledger: receitas with a status and an audit history, the
 * month/status/search filter of the revenue page and its three totals.
 */
module Revenue {
  import opened Common
  import Domain
  import Text

  datatype Status = Recebido | Pendente | Atrasado

  /** One line of a receita's history. */
  datatype Entry = Entry(id: string, data: Date, usuario: string, acao: string, detalhes: string)

  datatype Receita = Receita(
    id: string,
    data: Date,
    descricao: string,
    valor: int,
    categoria: string,
    fonte: string,
    observacoes: Option<string>,
    status: Status,
    dataRecebimento: Option<Date>,
    metodoPagamento: Option<string>,
    comprovante: Option<string>,
    historico: Option<seq<Entry>>)

  /** The add dialog's partially filled receita; the status always has a value. */
  datatype Draft = Draft(
    data: Option<Date>,
    descricao: Option<string>,
    valor: Option<int>,
    categoria: Option<string>,
    fonte: Option<string>,
    observacoes: Option<string>,
    status: Status,
    dataRecebimento: Option<Date>,
    metodoPagamento: Option<string>,
    comprovante: Option<string>)

  /** `user?.username || "Sistema"`. */
  function Usuario(user: Option<Domain.User>): (r: string)
    ensures r != ""
    ensures user.Some? && user.value.username != "" ==> r == user.value.username
    ensures user.None? || user.value.username == "" ==> r == "Sistema"
  {
    if user.Some? && user.value.username != "" then user.value.username else "Sistema"
  }

  /** A receita's history, with an absent history read as empty. */
  function HistoryOf(r: Receita): seq<Entry>
  {
    if r.historico.Some? then r.historico.value else []
  }

  /** The receita with one more history line. */
  function Logged(r: Receita, e: Entry): (q: Receita)
    ensures q.historico == Some(HistoryOf(r) + [e])
    ensures q == r.(historico := q.historico)
  {
    r.(historico := Some(HistoryOf(r) + [e]))
  }

  /** The add dialog accepts a draft with a description, a non-zero value, a
      category and a source. */
  predicate Complete(d: Draft)
  {
    Present(d.descricao) && NonZero(d.valor) && Present(d.categoria) && Present(d.fonte)
  }

  /** The receita a complete draft becomes. `freshId` is the millisecond stamp
      shared by the receita and its first history line. */
  function Created(d: Draft, user: Option<Domain.User>, freshId: string, now: Date): (n: Receita)
    requires Complete(d)
    ensures n.id == freshId && n.status == d.status
    ensures n.data == (if d.data.Some? then d.data.value else now)
    ensures n.descricao == d.descricao.value && n.valor == d.valor.value
    ensures n.categoria == d.categoria.value && n.fonte == d.fonte.value
    ensures n.observacoes == Some(if d.observacoes.Some? then d.observacoes.value else "")
    ensures n.dataRecebimento.Some? <==> d.status == Recebido
    ensures d.status == Recebido ==>
              n.dataRecebimento.value == (if d.dataRecebimento.Some? then d.dataRecebimento.value else now)
    ensures n.metodoPagamento == d.metodoPagamento && n.comprovante == d.comprovante
    ensures n.historico == Some([Entry(freshId, now, Usuario(user), "Criação", "Receita criada")])
  {
    Receita(
      freshId,
      if d.data.Some? then d.data.value else now,
      d.descricao.value,
      d.valor.value,
      d.categoria.value,
      d.fonte.value,
      Some(if d.observacoes.Some? then d.observacoes.value else ""),
      d.status,
      if d.status == Recebido then Some(if d.dataRecebimento.Some? then d.dataRecebimento.value else now) else None,
      d.metodoPagamento,
      d.comprovante,
      Some([Entry(freshId, now, Usuario(user), "Criação", "Receita criada")]))
  }

  /** `handleAddReceita`: an incomplete draft changes nothing, otherwise the new
      receita goes last. */
  function AddReceita(rs: seq<Receita>, d: Draft, user: Option<Domain.User>, freshId: string, now: Date): (r: seq<Receita>)
    ensures !Complete(d) ==> r == rs
    ensures Complete(d) ==> |r| == |rs| + 1 && r[..|rs|] == rs && r[|rs|] == Created(d, user, freshId, now)
  {
    if Complete(d) then rs + [Created(d, user, freshId, now)] else rs
  }

  /** `handleEditReceita`: every receita with the selection's id becomes the
      selection with an "Edição" line added to the selection's history. */
  function EditReceita(rs: seq<Receita>, sel: Option<Receita>, user: Option<Domain.User>, entryId: string, now: Date): (r: seq<Receita>)
    ensures sel.None? ==> r == rs
    ensures |r| == |rs|
    ensures sel.Some? ==> forall i :: 0 <= i < |rs| && rs[i].id != sel.value.id ==> r[i] == rs[i]
    ensures sel.Some? ==> forall i :: 0 <= i < |rs| && rs[i].id == sel.value.id ==>
              r[i] == Logged(sel.value, Entry(entryId, now, Usuario(user), "Edição", "Receita atualizada"))
  {
    match sel
    case None => rs
    case Some(s) =>
      var updated := Logged(s, Entry(entryId, now, Usuario(user), "Edição", "Receita atualizada"));
      seq(|rs|, i requires 0 <= i < |rs| => if rs[i].id == updated.id then updated else rs[i])
  }

  /** `handleDeleteReceita`: the receitas without those carrying the id, the
      others kept in order. */
  function DeleteReceita(rs: seq<Receita>, id: string): (r: seq<Receita>)
    ensures |r| <= |rs|
    ensures forall x :: x in r <==> x in rs && x.id != id
    ensures (forall x :: x in rs ==> x.id != id) ==> r == rs
  {
    if rs == [] then []
    else if rs[0].id == id then DeleteReceita(rs[1..], id)
    else [rs[0]] + DeleteReceita(rs[1..], id)
  }

  /** One receita as `handleMarcarComoRecebida` leaves it. */
  function Received(x: Receita, user: Option<Domain.User>, entryId: string, now: Date): (q: Receita)
    ensures q.status == Recebido && q.dataRecebimento == Some(now)
    ensures q.historico == Some(HistoryOf(x) + [Entry(entryId, now, Usuario(user), "Status", "Marcada como recebida")])
    ensures q.(status := x.status, dataRecebimento := x.dataRecebimento, historico := x.historico) == x
  {
    Logged(x, Entry(entryId, now, Usuario(user), "Status", "Marcada como recebida"))
      .(status := Recebido, dataRecebimento := Some(now))
  }

  /** `handleMarcarComoRecebida`. */
  function MarcarComoRecebida(rs: seq<Receita>, id: string, user: Option<Domain.User>, entryId: string, now: Date): (r: seq<Receita>)
    ensures |r| == |rs|
    ensures forall i :: 0 <= i < |rs| && rs[i].id != id ==> r[i] == rs[i]
    ensures forall i :: 0 <= i < |rs| && rs[i].id == id ==> r[i] == Received(rs[i], user, entryId, now)
  {
    seq(|rs|, i requires 0 <= i < |rs| => if rs[i].id == id then Received(rs[i], user, entryId, now) else rs[i])
  }

  // ---------------------------------------------------------- page filter

  /** The status tabs of the revenue page. */
  datatype Tab = Todas | Recebidas | Pendentes | Atrasadas

  predicate MatchesStatus(tab: Tab, s: Status)
  {
    tab == Todas
    || (tab == Recebidas && s == Recebido)
    || (tab == Pendentes && s == Pendente)
    || (tab == Atrasadas && s == Atrasado)
  }

  /** The search term occurs, ignoring case, in the description, category or source. */
  predicate MatchesSearch(x: Receita, term: string)
  {
    var t := Text.Lower(term);
    Text.Contains(Text.Lower(x.descricao), t)
    || Text.Contains(Text.Lower(x.categoria), t)
    || Text.Contains(Text.Lower(x.fonte), t)
  }

  predicate Shown(x: Receita, m: MonthKey, term: string, tab: Tab)
  {
    x.data.Key() == m && MatchesSearch(x, term) && MatchesStatus(tab, x.status)
  }

  /** `receitasFiltradas`. */
  function Filtradas(rs: seq<Receita>, m: MonthKey, term: string, tab: Tab): (r: seq<Receita>)
    ensures forall x :: x in r <==> x in rs && Shown(x, m, term, tab)
  {
    if rs == [] then []
    else
      var rest := Filtradas(rs[1..], m, term, tab);
      assert forall x :: x in rs <==> x == rs[0] || x in rs[1..];
      if Shown(rs[0], m, term, tab) then [rs[0]] + rest else rest
  }

  // ---------------------------------------------------------------- totals

  /** `totalReceitas`. */
  function Total(rs: seq<Receita>): int
  {
    if rs == [] then 0 else rs[0].valor + Total(rs[1..])
  }

  /** `totalRecebido`: the receitas with status recebido. */
  function TotalRecebido(rs: seq<Receita>): int
  {
    if rs == [] then 0 else (if rs[0].status == Recebido then rs[0].valor else 0) + TotalRecebido(rs[1..])
  }

  /** `totalPendente`: the receitas still pending or overdue. */
  function TotalPendente(rs: seq<Receita>): int
  {
    if rs == [] then 0
    else (if rs[0].status == Pendente || rs[0].status == Atrasado then rs[0].valor else 0) + TotalPendente(rs[1..])
  }

  // ---------------------------------------------------------------- lemmas

  /** Deletion works piecewise over a concatenation; with `DeleteSingle`, the
      receitas kept stay in order with their multiplicity. */
  lemma {:induction false} DeleteAppend(a: seq<Receita>, b: seq<Receita>, id: string)
    ensures DeleteReceita(a + b, id) == DeleteReceita(a, id) + DeleteReceita(b, id)
    decreases |a|
  {
    if a == [] {
      assert a + b == b;
    } else {
      assert (a + b)[0] == a[0] && (a + b)[1..] == a[1..] + b;
      DeleteAppend(a[1..], b, id);
    }
  }

  /** A single receita is kept exactly when its id differs. */
  lemma DeleteSingle(x: Receita, id: string)
    ensures DeleteReceita([x], id) == if x.id == id then [] else [x]
  {
    assert [x][1..] == [];
  }

  /** The page filter works piecewise over a concatenation; with
      `FiltradasSingle`, the shown receitas keep their order and multiplicity. */
  lemma {:induction false} FiltradasAppend(a: seq<Receita>, b: seq<Receita>, m: MonthKey, term: string, tab: Tab)
    ensures Filtradas(a + b, m, term, tab) == Filtradas(a, m, term, tab) + Filtradas(b, m, term, tab)
    decreases |a|
  {
    if a == [] {
      assert a + b == b;
    } else {
      assert (a + b)[0] == a[0] && (a + b)[1..] == a[1..] + b;
      FiltradasAppend(a[1..], b, m, term, tab);
    }
  }

  /** A single receita is shown exactly when it passes the filter. */
  lemma FiltradasSingle(x: Receita, m: MonthKey, term: string, tab: Tab)
    ensures Filtradas([x], m, term, tab) == if Shown(x, m, term, tab) then [x] else []
  {
    assert [x][1..] == [];
  }

  /** The three totals add up over a concatenation. */
  lemma {:induction false} TotalsAppend(a: seq<Receita>, b: seq<Receita>)
    ensures Total(a + b) == Total(a) + Total(b)
    ensures TotalRecebido(a + b) == TotalRecebido(a) + TotalRecebido(b)
    ensures TotalPendente(a + b) == TotalPendente(a) + TotalPendente(b)
    decreases |a|
  {
    if a == [] {
      assert a + b == b;
    } else {
      assert (a + b)[0] == a[0] && (a + b)[1..] == a[1..] + b;
      TotalsAppend(a[1..], b);
    }
  }

  /** One receita counts its amount in the total, in the received total
      exactly when received, and in the pending total exactly when pending
      or overdue. */
  lemma TotalsSingle(x: Receita)
    ensures Total([x]) == x.valor
    ensures TotalRecebido([x]) == if x.status == Recebido then x.valor else 0
    ensures TotalPendente([x]) == if x.status == Pendente || x.status == Atrasado then x.valor else 0
  {
    assert [x][1..] == [];
  }

  /** The three statuses split every list, so received plus pending is the total. */
  lemma {:induction false} TotalsAddUp(rs: seq<Receita>)
    ensures TotalRecebido(rs) + TotalPendente(rs) == Total(rs)
    decreases |rs|
  {
    if rs != [] {
      TotalsAddUp(rs[1..]);
    }
  }

  /** The "todas" tab passes every status, and each other tab exactly one. */
  lemma TabsPartition(s: Status)
    ensures MatchesStatus(Todas, s)
    ensures MatchesStatus(Recebidas, s) <==> s == Recebido
    ensures MatchesStatus(Pendentes, s) <==> s == Pendente
    ensures MatchesStatus(Atrasadas, s) <==> s == Atrasado
  {
  }

  /** Editing adds exactly one history line to the edited receita. */
  lemma EditAddsOneEntry(rs: seq<Receita>, sel: Receita, user: Option<Domain.User>, entryId: string, now: Date, i: nat)
    requires i < |rs| && rs[i].id == sel.id
    ensures var r := EditReceita(rs, Some(sel), user, entryId, now);
            |HistoryOf(r[i])| == |HistoryOf(sel)| + 1
            && HistoryOf(r[i])[..|HistoryOf(sel)|] == HistoryOf(sel)
            && HistoryOf(r[i])[|HistoryOf(sel)|].acao == "Edição"
  {
  }

  /** Marking leaves nothing pending under that id: the pending total is the
      pending total of the other receitas. */
  lemma {:induction false} MarkClearsPending(rs: seq<Receita>, id: string, user: Option<Domain.User>, entryId: string, now: Date)
    ensures TotalPendente(MarcarComoRecebida(rs, id, user, entryId, now)) == TotalPendente(DeleteReceita(rs, id))
    decreases |rs|
  {
    if rs != [] {
      var r := MarcarComoRecebida(rs, id, user, entryId, now);
      assert r[1..] == MarcarComoRecebida(rs[1..], id, user, entryId, now);
      MarkClearsPending(rs[1..], id, user, entryId, now);
    }
  }

  /** Marking changes no value, so the list's total stays. */
  lemma {:induction false} MarkKeepsTotal(rs: seq<Receita>, id: string, user: Option<Domain.User>, entryId: string, now: Date)
    ensures Total(MarcarComoRecebida(rs, id, user, entryId, now)) == Total(rs)
    decreases |rs|
  {
    if rs != [] {
      var r := MarcarComoRecebida(rs, id, user, entryId, now);
      assert r[1..] == MarcarComoRecebida(rs[1..], id, user, entryId, now);
      MarkKeepsTotal(rs[1..], id, user, entryId, now);
    }
  }
}
