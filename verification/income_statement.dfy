/**
 * The income statement: receitas and supplier payments of a period, the
 * received and paid totals, the per-category and per-department reports and
 * the financial indicators.
 */
module IncomeStatement {
  import opened Common
  import opened Domain
  import R = Revenue
  import G = Grouping

  /** The selected date range; either end may be unset. */
  datatype Period = Period(from: Option<Date>, to: Option<Date>)

  predicate Bounded(per: Period)
  {
    per.from.Some? && per.to.Some?
  }

  /** The date a receita is filed under: the receipt date of a received
      receita that has one, otherwise its own date. */
  function ReceitaDate(x: R.Receita): (d: Date)
    ensures x.status == R.Recebido && x.dataRecebimento.Some? ==> d == x.dataRecebimento.value
    ensures !(x.status == R.Recebido && x.dataRecebimento.Some?) ==> d == x.data
  {
    if x.status == R.Recebido && x.dataRecebimento.Some? then x.dataRecebimento.value else x.data
  }

  function PaymentsWithin(all: seq<Located>, start: Date, end: Date): (r: seq<Pagamento>)
    ensures forall p :: p in r <==> (exists l :: l in all && l.p == p) && WithinInterval(EffectiveDate(p), start, end)
  {
    if all == [] then []
    else
      var rest := PaymentsWithin(all[1..], start, end);
      assert forall l :: l in all <==> l == all[0] || l in all[1..];
      if WithinInterval(EffectiveDate(all[0].p), start, end) then [all[0].p] + rest else rest
  }

  /** `pagamentosFiltrados`: every supplier's payments whose effective date
      lies in the period, or nothing when the period is open. */
  function Despesas(fs: seq<Fornecedor>, per: Period): (r: seq<Pagamento>)
    ensures !Bounded(per) ==> r == []
    ensures Bounded(per) ==> forall p :: p in r <==>
              (exists l :: l in AllPayments(fs) && l.p == p) && WithinInterval(EffectiveDate(p), per.from.value, per.to.value)
  {
    if Bounded(per) then PaymentsWithin(AllPayments(fs), per.from.value, per.to.value) else []
  }

  function ReceitasWithin(rs: seq<R.Receita>, start: Date, end: Date): (r: seq<R.Receita>)
    ensures forall x :: x in r <==> x in rs && WithinInterval(ReceitaDate(x), start, end)
  {
    if rs == [] then []
    else
      var rest := ReceitasWithin(rs[1..], start, end);
      assert forall x :: x in rs <==> x == rs[0] || x in rs[1..];
      if WithinInterval(ReceitaDate(rs[0]), start, end) then [rs[0]] + rest else rest
  }

  /** `receitasFiltradas`. */
  function Receitas(rs: seq<R.Receita>, per: Period): (r: seq<R.Receita>)
    ensures !Bounded(per) ==> r == []
    ensures Bounded(per) ==> forall x :: x in r <==> x in rs && WithinInterval(ReceitaDate(x), per.from.value, per.to.value)
  {
    if Bounded(per) then ReceitasWithin(rs, per.from.value, per.to.value) else []
  }

  /** Sum of the payments in the given states. */
  function SumWhere(ps: seq<Pagamento>, states: set<Estado>): int
  {
    if ps == [] then 0 else (if ps[0].estado in states then ps[0].valor else 0) + SumWhere(ps[1..], states)
  }

  /** `totalReceitas`: the received receitas of the period. */
  function TotalReceitas(rs: seq<R.Receita>, per: Period): int
  {
    R.TotalRecebido(Receitas(rs, per))
  }

  /** `totalDespesas`: the paid payments of the period. */
  function TotalDespesas(fs: seq<Fornecedor>, per: Period): int
  {
    SumWhere(Despesas(fs, per), {Pago})
  }

  /** `resultado`. */
  function Resultado(rs: seq<R.Receita>, fs: seq<Fornecedor>, per: Period): (r: int)
    ensures r + TotalDespesas(fs, per) == TotalReceitas(rs, per)
  {
    TotalReceitas(rs, per) - TotalDespesas(fs, per)
  }

  // --------------------------------------------------------------- reports

  /** Received receitas as amounts under their category. */
  function ByCategoria(rs: seq<R.Receita>): (r: seq<G.Bucket>)
    ensures forall b :: b in r ==> exists x :: x in rs && x.status == R.Recebido && b == G.Bucket(x.categoria, x.valor)
  {
    if rs == [] then []
    else
      var head := if rs[0].status == R.Recebido then [G.Bucket(rs[0].categoria, rs[0].valor)] else [];
      head + ByCategoria(rs[1..])
  }

  /** Paid payments as amounts under their department. */
  function ByDepartamento(ps: seq<Pagamento>): (r: seq<G.Bucket>)
    ensures forall b :: b in r ==> exists p :: p in ps && p.estado == Pago && b == G.Bucket(p.departamento, p.valor)
  {
    if ps == [] then []
    else
      var head := if ps[0].estado == Pago then [G.Bucket(ps[0].departamento, ps[0].valor)] else [];
      head + ByDepartamento(ps[1..])
  }

  /** `receitasPorCategoria`: one entry per category, largest first, adding up
      to the received total; categories of equal total keep the order in which
      they were first met. */
  function ReceitasPorCategoria(rs: seq<R.Receita>, per: Period): (r: seq<G.Bucket>)
    ensures G.SortedDesc(r)
    ensures G.Total(r) == TotalReceitas(rs, per)
    ensures forall b :: b in r ==> b.valor == G.KeyTotal(ByCategoria(Receitas(rs, per)), b.key)
    ensures G.DistinctKeys(r)
    ensures forall k :: G.HasKey(r, k) <==> G.HasKey(ByCategoria(Receitas(rs, per)), k)
    ensures forall v :: G.WithValue(r, v) == G.WithValue(G.GroupBy(ByCategoria(Receitas(rs, per))), v)
  {
    CategoriaTotal(Receitas(rs, per));
    G.Report(ByCategoria(Receitas(rs, per)))
  }

  /** `despesasPorDepartamento`: one entry per department, largest first,
      adding up to the paid total; departments of equal total keep the order
      in which they were first met. */
  function DespesasPorDepartamento(fs: seq<Fornecedor>, per: Period): (r: seq<G.Bucket>)
    ensures G.SortedDesc(r)
    ensures G.Total(r) == TotalDespesas(fs, per)
    ensures forall b :: b in r ==> b.valor == G.KeyTotal(ByDepartamento(Despesas(fs, per)), b.key)
    ensures G.DistinctKeys(r)
    ensures forall k :: G.HasKey(r, k) <==> G.HasKey(ByDepartamento(Despesas(fs, per)), k)
    ensures forall v :: G.WithValue(r, v) == G.WithValue(G.GroupBy(ByDepartamento(Despesas(fs, per))), v)
  {
    DepartamentoTotal(Despesas(fs, per));
    G.Report(ByDepartamento(Despesas(fs, per)))
  }

  // ------------------------------------------------------------ indicators

  /** An exact quotient `num / den`, standing for a floating-point percentage. */
  datatype Ratio = Ratio(num: int, den: int)

  const Zero: Ratio := Ratio(0, 1)

  datatype Indicadores = Indicadores(
    margemLucro: Ratio,
    relacaoDespesaReceita: Ratio,
    receitasPendentes: int,
    despesasPendentes: int,
    resultadoProjetado: int)

  /** `indicadores`. Both percentages are 0 unless some receita was received. */
  function Indicators(rs: seq<R.Receita>, fs: seq<Fornecedor>, per: Period): (r: Indicadores)
    ensures TotalReceitas(rs, per) <= 0 ==> r.margemLucro == Zero && r.relacaoDespesaReceita == Zero
    ensures TotalReceitas(rs, per) > 0 ==>
              r.margemLucro.den == TotalReceitas(rs, per) && r.margemLucro.num == 100 * Resultado(rs, fs, per)
              && r.relacaoDespesaReceita.den == TotalReceitas(rs, per)
              && r.relacaoDespesaReceita.num == 100 * TotalDespesas(fs, per)
    ensures r.receitasPendentes == R.TotalPendente(Receitas(rs, per))
    ensures r.despesasPendentes == SumWhere(Despesas(fs, per), {Pendente, Atrasado})
    ensures r.resultadoProjetado ==
              R.Total(Receitas(rs, per)) - SumWhere(Despesas(fs, per), {Pago, Pendente, Atrasado})
  {
    var receitas, despesas := TotalReceitas(rs, per), TotalDespesas(fs, per);
    var resultado := Resultado(rs, fs, per);
    var pendentesR := R.TotalPendente(Receitas(rs, per));
    var pendentesD := SumWhere(Despesas(fs, per), {Pendente, Atrasado});
    R.TotalsAddUp(Receitas(rs, per));
    SumWhereSplit(Despesas(fs, per), {Pago}, {Pendente, Atrasado});
    assert {Pago} + {Pendente, Atrasado} == {Pago, Pendente, Atrasado};
    Indicadores(
      if receitas > 0 then Ratio(100 * resultado, receitas) else Zero,
      if receitas > 0 then Ratio(100 * despesas, receitas) else Zero,
      pendentesR,
      pendentesD,
      receitas + pendentesR - (despesas + pendentesD))
  }

  // ---------------------------------------------------------------- lemmas

  lemma {:induction false} CategoriaTotal(rs: seq<R.Receita>)
    ensures G.Total(ByCategoria(rs)) == R.TotalRecebido(rs)
    decreases |rs|
  {
    if rs != [] {
      CategoriaTotal(rs[1..]);
      if rs[0].status == R.Recebido {
        G.TotalCons(G.Bucket(rs[0].categoria, rs[0].valor), ByCategoria(rs[1..]));
      } else {
        assert ByCategoria(rs) == ByCategoria(rs[1..]);
      }
    }
  }

  lemma {:induction false} DepartamentoTotal(ps: seq<Pagamento>)
    ensures G.Total(ByDepartamento(ps)) == SumWhere(ps, {Pago})
    decreases |ps|
  {
    if ps != [] {
      DepartamentoTotal(ps[1..]);
      if ps[0].estado == Pago {
        G.TotalCons(G.Bucket(ps[0].departamento, ps[0].valor), ByDepartamento(ps[1..]));
      } else {
        assert ByDepartamento(ps) == ByDepartamento(ps[1..]);
      }
    }
  }

  /** Sums over disjoint sets of states add up. */
  lemma {:induction false} SumWhereSplit(ps: seq<Pagamento>, a: set<Estado>, b: set<Estado>)
    requires forall e :: e in a ==> e !in b
    ensures SumWhere(ps, a) + SumWhere(ps, b) == SumWhere(ps, a + b)
    decreases |ps|
  {
    if ps != [] {
      SumWhereSplit(ps[1..], a, b);
    }
  }

  /** Cancelled payments never reach any figure of the statement. */
  lemma {:induction false} CancelledIgnored(ps: seq<Pagamento>, p: Pagamento, i: nat)
    requires i <= |ps| && p.estado == Cancelado
    ensures SumWhere(ps[..i] + [p] + ps[i..], {Pago, Pendente, Atrasado}) == SumWhere(ps, {Pago, Pendente, Atrasado})
    ensures SumWhere(ps[..i] + [p] + ps[i..], {Pago}) == SumWhere(ps, {Pago})
    decreases i
  {
    if i > 0 {
      CancelledIgnored(ps[1..], p, i - 1);
      assert (ps[..i] + [p] + ps[i..])[1..] == ps[1..][..i - 1] + [p] + ps[1..][i - 1..];
    } else {
      assert ps[..0] + [p] + ps[0..] == [p] + ps;
      assert ([p] + ps)[1..] == ps;
    }
  }

  /** The period filter on payments works piecewise over a concatenation;
      with `PaymentsWithinSingle`, the payments kept stay in order with their
      multiplicity. */
  lemma {:induction false} PaymentsWithinAppend(a: seq<Located>, b: seq<Located>, start: Date, end: Date)
    ensures PaymentsWithin(a + b, start, end) == PaymentsWithin(a, start, end) + PaymentsWithin(b, start, end)
    decreases |a|
  {
    if a == [] {
      assert a + b == b;
    } else {
      assert (a + b)[0] == a[0] && (a + b)[1..] == a[1..] + b;
      PaymentsWithinAppend(a[1..], b, start, end);
    }
  }

  /** One payment is kept exactly when its effective date is in the range. */
  lemma PaymentsWithinSingle(l: Located, start: Date, end: Date)
    ensures PaymentsWithin([l], start, end) == if WithinInterval(EffectiveDate(l.p), start, end) then [l.p] else []
  {
    assert [l][1..] == [];
  }

  /** The period filter on receitas works piecewise over a concatenation;
      with `ReceitasWithinSingle`, the receitas kept stay in order with their
      multiplicity. */
  lemma {:induction false} ReceitasWithinAppend(a: seq<R.Receita>, b: seq<R.Receita>, start: Date, end: Date)
    ensures ReceitasWithin(a + b, start, end) == ReceitasWithin(a, start, end) + ReceitasWithin(b, start, end)
    decreases |a|
  {
    if a == [] {
      assert a + b == b;
    } else {
      assert (a + b)[0] == a[0] && (a + b)[1..] == a[1..] + b;
      ReceitasWithinAppend(a[1..], b, start, end);
    }
  }

  /** One receita is kept exactly when the date it is filed under is in the range. */
  lemma ReceitasWithinSingle(x: R.Receita, start: Date, end: Date)
    ensures ReceitasWithin([x], start, end) == if WithinInterval(ReceitaDate(x), start, end) then [x] else []
  {
    assert [x][1..] == [];
  }

  /** The period's payments of a concatenation of suppliers are those of the
      first part followed by those of the second. */
  lemma DespesasAppend(a: seq<Fornecedor>, b: seq<Fornecedor>, per: Period)
    ensures Despesas(a + b, per) == Despesas(a, per) + Despesas(b, per)
  {
    AllPaymentsAppend(a, b);
    if Bounded(per) {
      PaymentsWithinAppend(AllPayments(a), AllPayments(b), per.from.value, per.to.value);
    }
  }

  /** A supplier holding one payment contributes it exactly when the period
      is set and the payment's effective date lies in it. */
  lemma DespesasSingle(id: string, nome: string, p: Pagamento, per: Period)
    ensures Despesas([Fornecedor(id, nome, [p])], per)
            == if Bounded(per) && WithinInterval(EffectiveDate(p), per.from.value, per.to.value) then [p] else []
  {
    var f := Fornecedor(id, nome, [p]);
    AllPaymentsSingle(f);
    assert AllPayments([f]) == [Located(p, id, nome)];
    if Bounded(per) {
      PaymentsWithinSingle(Located(p, id, nome), per.from.value, per.to.value);
    }
  }

  /** A supplier's payments count as if they were split over two suppliers
      with the same id and name. */
  lemma DespesasSplit(id: string, nome: string, ps: seq<Pagamento>, qs: seq<Pagamento>, per: Period)
    ensures Despesas([Fornecedor(id, nome, ps + qs)], per)
            == Despesas([Fornecedor(id, nome, ps)], per) + Despesas([Fornecedor(id, nome, qs)], per)
  {
    AllPaymentsSplit(id, nome, ps, qs);
    if Bounded(per) {
      PaymentsWithinAppend(AllPayments([Fornecedor(id, nome, ps)]), AllPayments([Fornecedor(id, nome, qs)]), per.from.value, per.to.value);
    }
  }

  /** The period's receitas of a concatenation are those of the first part
      followed by those of the second. */
  lemma ReceitasAppend(a: seq<R.Receita>, b: seq<R.Receita>, per: Period)
    ensures Receitas(a + b, per) == Receitas(a, per) + Receitas(b, per)
  {
    if Bounded(per) {
      ReceitasWithinAppend(a, b, per.from.value, per.to.value);
    }
  }

  /** Sums over states add up over a concatenation. */
  lemma {:induction false} SumWhereAppend(a: seq<Pagamento>, b: seq<Pagamento>, states: set<Estado>)
    ensures SumWhere(a + b, states) == SumWhere(a, states) + SumWhere(b, states)
    decreases |a|
  {
    if a == [] {
      assert a + b == b;
    } else {
      assert (a + b)[0] == a[0] && (a + b)[1..] == a[1..] + b;
      SumWhereAppend(a[1..], b, states);
    }
  }

  /** The received total is additive over receitas; one receita adds its
      amount exactly when it is received and filed inside a set period. */
  lemma TotalReceitasAppend(a: seq<R.Receita>, b: seq<R.Receita>, per: Period)
    ensures TotalReceitas(a + b, per) == TotalReceitas(a, per) + TotalReceitas(b, per)
  {
    ReceitasAppend(a, b, per);
    R.TotalsAppend(Receitas(a, per), Receitas(b, per));
  }

  lemma TotalReceitasSingle(x: R.Receita, per: Period)
    ensures TotalReceitas([x], per)
            == if Bounded(per) && WithinInterval(ReceitaDate(x), per.from.value, per.to.value) && x.status == R.Recebido
               then x.valor else 0
  {
    if Bounded(per) {
      ReceitasWithinSingle(x, per.from.value, per.to.value);
      R.TotalsSingle(x);
    }
  }

  /** The paid total is additive over suppliers and over a supplier's
      payments; one payment adds its amount exactly when it is paid and its
      effective date lies inside a set period. */
  lemma TotalDespesasAppend(a: seq<Fornecedor>, b: seq<Fornecedor>, per: Period)
    ensures TotalDespesas(a + b, per) == TotalDespesas(a, per) + TotalDespesas(b, per)
  {
    DespesasAppend(a, b, per);
    SumWhereAppend(Despesas(a, per), Despesas(b, per), {Pago});
  }

  lemma TotalDespesasSplit(id: string, nome: string, ps: seq<Pagamento>, qs: seq<Pagamento>, per: Period)
    ensures TotalDespesas([Fornecedor(id, nome, ps + qs)], per)
            == TotalDespesas([Fornecedor(id, nome, ps)], per) + TotalDespesas([Fornecedor(id, nome, qs)], per)
  {
    DespesasSplit(id, nome, ps, qs, per);
    SumWhereAppend(Despesas([Fornecedor(id, nome, ps)], per), Despesas([Fornecedor(id, nome, qs)], per), {Pago});
  }

  lemma TotalDespesasSingle(id: string, nome: string, p: Pagamento, per: Period)
    ensures TotalDespesas([Fornecedor(id, nome, [p])], per)
            == if Bounded(per) && WithinInterval(EffectiveDate(p), per.from.value, per.to.value) && p.estado == Pago
               then p.valor else 0
  {
    DespesasSingle(id, nome, p, per);
    assert [p][1..] == [];
    assert SumWhere([p], {Pago}) == (if p.estado == Pago then p.valor else 0) + SumWhere([], {Pago});
  }

  /** The category entries work piecewise over a concatenation; with
      `ByCategoriaSingle`, each received receita gives exactly one entry, in
      order. */
  lemma {:induction false} ByCategoriaAppend(a: seq<R.Receita>, b: seq<R.Receita>)
    ensures ByCategoria(a + b) == ByCategoria(a) + ByCategoria(b)
    decreases |a|
  {
    if a == [] {
      assert a + b == b;
    } else {
      assert (a + b)[0] == a[0] && (a + b)[1..] == a[1..] + b;
      var head := if a[0].status == R.Recebido then [G.Bucket(a[0].categoria, a[0].valor)] else [];
      assert ByCategoria(a + b) == head + ByCategoria(a[1..] + b);
      ByCategoriaAppend(a[1..], b);
      assert ByCategoria(a) == head + ByCategoria(a[1..]);
    }
  }

  lemma ByCategoriaSingle(x: R.Receita)
    ensures ByCategoria([x]) == if x.status == R.Recebido then [G.Bucket(x.categoria, x.valor)] else []
  {
    assert [x][1..] == [];
  }

  /** The department entries work piecewise over a concatenation; with
      `ByDepartamentoSingle`, each paid payment gives exactly one entry, in
      order. */
  lemma {:induction false} ByDepartamentoAppend(a: seq<Pagamento>, b: seq<Pagamento>)
    ensures ByDepartamento(a + b) == ByDepartamento(a) + ByDepartamento(b)
    decreases |a|
  {
    if a == [] {
      assert a + b == b;
    } else {
      assert (a + b)[0] == a[0] && (a + b)[1..] == a[1..] + b;
      var head := if a[0].estado == Pago then [G.Bucket(a[0].departamento, a[0].valor)] else [];
      assert ByDepartamento(a + b) == head + ByDepartamento(a[1..] + b);
      ByDepartamentoAppend(a[1..], b);
      assert ByDepartamento(a) == head + ByDepartamento(a[1..]);
    }
  }

  lemma ByDepartamentoSingle(p: Pagamento)
    ensures ByDepartamento([p]) == if p.estado == Pago then [G.Bucket(p.departamento, p.valor)] else []
  {
    assert [p][1..] == [];
  }

  /** When something was received, the profit margin and the expense ratio
      add up to one hundred percent. */
  lemma MarginComplementsRatio(rs: seq<R.Receita>, fs: seq<Fornecedor>, per: Period)
    requires TotalReceitas(rs, per) > 0
    ensures var ind := Indicators(rs, fs, per);
            ind.margemLucro.den == ind.relacaoDespesaReceita.den
            && ind.margemLucro.num + ind.relacaoDespesaReceita.num == 100 * ind.margemLucro.den
  {
  }

  /** With an open period nothing is counted. */
  lemma OpenPeriodCountsNothing(rs: seq<R.Receita>, fs: seq<Fornecedor>, per: Period)
    requires !Bounded(per)
    ensures TotalReceitas(rs, per) == 0 && TotalDespesas(fs, per) == 0 && Resultado(rs, fs, per) == 0
    ensures ReceitasPorCategoria(rs, per) == [] && DespesasPorDepartamento(fs, per) == []
  {
    assert G.GroupBy([]) == [];
    assert G.SortDesc([]) == [];
  }
}
