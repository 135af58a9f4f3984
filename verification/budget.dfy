/**
 * The monthly budget forecast: one bucket of planned items per (year, month),
 * the amounts actually invoiced in that month per department, and the
 * execution percentages the forecast page shows.
 */
module Budget {
  import opened Common
  import opened Domain
  import G = Grouping

  /** A planned amount for one department. */
  datatype Item = Item(id: string, departamento: string, valorPrevisto: int, descricao: string)

  /** One month's budget. `mes` counts from 1. */
  datatype Orcamento = Orcamento(id: string, ano: int, mes: int, itens: seq<Item>)

  /** The add dialog's partially filled item. */
  datatype Draft = Draft(departamento: Option<string>, valorPrevisto: Option<int>, descricao: Option<string>)

  /** The bucket belongs to the selected month (whose `month` counts from 0). */
  predicate InMonth(o: Orcamento, m: MonthKey)
  {
    o.ano == m.year && o.mes == m.month + 1
  }

  /** No two buckets are for the same month. */
  predicate UniqueMonths(os: seq<Orcamento>)
  {
    forall i, j :: 0 <= i < j < |os| ==> !(os[i].ano == os[j].ano && os[i].mes == os[j].mes)
  }

  /** Position of the first bucket of the month (`orcamentos.find`). */
  function MonthIndex(os: seq<Orcamento>, m: MonthKey): (r: Option<nat>)
    ensures r.Some? ==> r.value < |os| && InMonth(os[r.value], m)
    ensures r.Some? ==> forall j :: 0 <= j < r.value ==> !InMonth(os[j], m)
    ensures r.None? ==> forall j :: 0 <= j < |os| ==> !InMonth(os[j], m)
  {
    if os == [] then None
    else if InMonth(os[0], m) then Some(0)
    else
      match MonthIndex(os[1..], m)
      case Some(k) => Some(k + 1)
      case None => None
  }

  /** The bucket the page shows for the month (`orcamentoAtual`). */
  function Current(os: seq<Orcamento>, m: MonthKey): (r: Option<Orcamento>)
    ensures r.Some? ==> r.value in os && InMonth(r.value, m)
    ensures r.None? <==> forall o :: o in os ==> !InMonth(o, m)
    ensures r.Some? ==> exists k :: 0 <= k < |os| && os[k] == r.value && forall j :: 0 <= j < k ==> !InMonth(os[j], m)
  {
    match MonthIndex(os, m)
    case Some(k) => Some(os[k])
    case None => None
  }

  /** The item a complete draft becomes; the description defaults to empty. */
  function NewItem(d: Draft, freshId: string): (it: Item)
    requires d.departamento.Some? && d.valorPrevisto.Some?
    ensures it.id == freshId && it.departamento == d.departamento.value
    ensures it.valorPrevisto == d.valorPrevisto.value
    ensures d.descricao.Some? ==> it.descricao == d.descricao.value
    ensures d.descricao.None? ==> it.descricao == ""
  {
    Item(freshId, d.departamento.value, d.valorPrevisto.value,
         if d.descricao.Some? then d.descricao.value else "")
  }

  /** A draft the add dialog accepts: a department and a non-zero amount. */
  predicate Complete(d: Draft)
  {
    Present(d.departamento) && NonZero(d.valorPrevisto)
  }

  /** Adds the draft to the month's bucket, or opens a bucket for the month.
      `freshId` is the millisecond stamp, used for the bucket and the item. */
  function AddItem(os: seq<Orcamento>, m: MonthKey, d: Draft, freshId: string): (r: seq<Orcamento>)
    ensures !Complete(d) ==> r == os
    ensures Complete(d) && Current(os, m).Some? ==>
              |r| == |os|
              && forall i :: 0 <= i < |os| ==>
                   r[i] == (if os[i].id == Current(os, m).value.id
                            then os[i].(itens := os[i].itens + [NewItem(d, freshId)])
                            else os[i])
    ensures Complete(d) && Current(os, m).None? ==>
              r == os + [Orcamento(freshId, m.year, m.month + 1, [NewItem(d, freshId)])]
  {
    if !Complete(d) then os
    else
      var item := NewItem(d, freshId);
      match Current(os, m)
      case Some(e) =>
        seq(|os|, i requires 0 <= i < |os| =>
          if os[i].id == e.id then os[i].(itens := os[i].itens + [item]) else os[i])
      case None => os + [Orcamento(freshId, m.year, m.month + 1, [item])]
  }

  /** The items with every one carrying `x`'s id replaced by `x`, in place. */
  function ReplaceItem(items: seq<Item>, x: Item): (r: seq<Item>)
    ensures |r| == |items|
    ensures forall i :: 0 <= i < |items| ==> r[i] == (if items[i].id == x.id then x else items[i])
  {
    seq(|items|, i requires 0 <= i < |items| => if items[i].id == x.id then x else items[i])
  }

  /** Replaces the edited item in the month's buckets; an unset selection, an
      empty department or a zero amount is refused. */
  function EditItem(os: seq<Orcamento>, m: MonthKey, sel: Option<Item>): (r: seq<Orcamento>)
    ensures sel.None? || sel.value.departamento == "" || sel.value.valorPrevisto == 0 ==> r == os
    ensures |r| == |os|
    ensures forall i :: 0 <= i < |os| && !InMonth(os[i], m) ==> r[i] == os[i]
    ensures forall i :: 0 <= i < |os| ==> r[i].id == os[i].id && r[i].ano == os[i].ano && r[i].mes == os[i].mes
    ensures sel.Some? && sel.value.departamento != "" && sel.value.valorPrevisto != 0 ==>
              forall i :: 0 <= i < |os| && InMonth(os[i], m) ==> r[i].itens == ReplaceItem(os[i].itens, sel.value)
  {
    if sel.None? || sel.value.departamento == "" || sel.value.valorPrevisto == 0 then os
    else
      seq(|os|, i requires 0 <= i < |os| =>
        if InMonth(os[i], m) then os[i].(itens := ReplaceItem(os[i].itens, sel.value)) else os[i])
  }

  /** The items without those carrying the id, the others kept in order. */
  function WithoutItem(items: seq<Item>, itemId: string): (r: seq<Item>)
    ensures |r| <= |items|
    ensures forall it :: it in r <==> it in items && it.id != itemId
  {
    if items == [] then []
    else if items[0].id == itemId then WithoutItem(items[1..], itemId)
    else [items[0]] + WithoutItem(items[1..], itemId)
  }

  /** The buckets after the item is taken out of the month's buckets. */
  function Emptied(os: seq<Orcamento>, m: MonthKey, itemId: string): (r: seq<Orcamento>)
    ensures |r| == |os|
    ensures forall i :: 0 <= i < |os| ==>
              r[i] == (if InMonth(os[i], m) then os[i].(itens := WithoutItem(os[i].itens, itemId)) else os[i])
  {
    seq(|os|, i requires 0 <= i < |os| =>
      if InMonth(os[i], m) then os[i].(itens := WithoutItem(os[i].itens, itemId)) else os[i])
  }

  /** The buckets that still hold an item, in their order. */
  function DropEmpty(os: seq<Orcamento>): (r: seq<Orcamento>)
    ensures |r| <= |os|
    ensures forall o :: o in r <==> o in os && o.itens != []
  {
    if os == [] then []
    else if os[0].itens == [] then DropEmpty(os[1..])
    else [os[0]] + DropEmpty(os[1..])
  }

  /** Removes the item from the month's buckets, then drops every bucket left
      without items, whatever its month. */
  function DeleteItem(os: seq<Orcamento>, m: MonthKey, itemId: string): (r: seq<Orcamento>)
    ensures forall o :: o in r ==> o.itens != []
    ensures forall o :: o in r && InMonth(o, m) ==> forall it :: it in o.itens ==> it.id != itemId
    ensures forall o :: o in os && !InMonth(o, m) ==> (o in r <==> o.itens != [])
    ensures forall o :: o in os && InMonth(o, m) && WithoutItem(o.itens, itemId) != [] ==>
              o.(itens := WithoutItem(o.itens, itemId)) in r
  {
    var e := Emptied(os, m, itemId);
    var r := DropEmpty(e);
    forall o | o in r && InMonth(o, m)
      ensures forall it :: it in o.itens ==> it.id != itemId
    {
      var i :| 0 <= i < |e| && e[i] == o;
    }
    forall o | o in os && !InMonth(o, m)
      ensures o in r <==> o.itens != []
    {
      var i :| 0 <= i < |os| && os[i] == o;
      assert e[i] == o;
      if o in r {
        var j :| 0 <= j < |e| && e[j] == o;
      }
    }
    forall o | o in os && InMonth(o, m) && WithoutItem(o.itens, itemId) != []
      ensures o.(itens := WithoutItem(o.itens, itemId)) in r
    {
      var i :| 0 <= i < |os| && os[i] == o;
      assert e[i] == o.(itens := WithoutItem(o.itens, itemId));
    }
    r
  }

  // ------------------------------------------------------ realized amounts

  /** Invoices of the month, in the order the suppliers hold them
      (`pagamentosDoMes`): any state, filed under their effective date. */
  function MonthInvoices(all: seq<Located>, m: MonthKey): (r: seq<Pagamento>)
    ensures forall p :: p in r <==>
              (exists l :: l in all && l.p == p) && p.tipo == Fatura && EffectiveDate(p).Key() == m
  {
    if all == [] then []
    else
      var rest := MonthInvoices(all[1..], m);
      assert forall l :: l in all <==> l == all[0] || l in all[1..];
      if all[0].p.tipo == Fatura && EffectiveDate(all[0].p).Key() == m then [all[0].p] + rest else rest
  }

  /** Each invoice as an amount under its department. */
  function ByDepartment(ps: seq<Pagamento>): (r: seq<G.Bucket>)
    ensures |r| == |ps|
    ensures forall i :: 0 <= i < |ps| ==> r[i] == G.Bucket(ps[i].departamento, ps[i].valor)
  {
    seq(|ps|, i requires 0 <= i < |ps| => G.Bucket(ps[i].departamento, ps[i].valor))
  }

  /** The month's invoices as department amounts. */
  function Spent(fs: seq<Fornecedor>, m: MonthKey): seq<G.Bucket>
  {
    ByDepartment(MonthInvoices(AllPayments(fs), m))
  }

  /** `valoresRealizados[departamento] || 0`: the department's share of the
      keyed record built from the month's invoices. */
  function Realizado(fs: seq<Fornecedor>, m: MonthKey, departamento: string): (r: int)
    ensures r == G.KeyTotal(Spent(fs, m), departamento)
  {
    var bs := Spent(fs, m);
    var g := G.GroupBy(bs);
    match G.IndexOf(g, departamento)
    case Some(i) => g[i].valor
    case None =>
      G.KeyTotalAbsent(bs, departamento);
      0
  }

  /** `totalRealizado`: the sum over every department of the keyed record,
      budgeted or not. */
  function TotalRealizado(fs: seq<Fornecedor>, m: MonthKey): (r: int)
    ensures r == G.Total(Spent(fs, m))
  {
    G.Total(G.GroupBy(Spent(fs, m)))
  }

  // ------------------------------------------------------ planned amounts

  function ItemsTotal(items: seq<Item>): int
  {
    if items == [] then 0 else ItemsTotal(items[..|items| - 1]) + items[|items| - 1].valorPrevisto
  }

  /** `totalPrevisto`: the month's planned amounts, 0 when the month has no bucket. */
  function TotalPrevisto(os: seq<Orcamento>, m: MonthKey): (r: int)
    ensures Current(os, m).None? ==> r == 0
    ensures Current(os, m).Some? ==> r == ItemsTotal(Current(os, m).value.itens)
  {
    match Current(os, m)
    case Some(o) => ItemsTotal(o.itens)
    case None => 0
  }

  /** `previsto > 0 ? Math.round(realizado / previsto * 100) : 0`, in exact
      arithmetic: the whole percentage nearest to the ratio, halves rounding up. */
  function Execution(realizado: int, previsto: int): (r: int)
    ensures previsto <= 0 ==> r == 0
    ensures previsto > 0 ==> 2 * previsto * r <= 200 * realizado + previsto < 2 * previsto * (r + 1)
  {
    if previsto > 0 then
      var q := (200 * realizado + previsto) / (2 * previsto);
      DivBracket(200 * realizado + previsto, 2 * previsto);
      q
    else 0
  }

  /** `percentualTotal`. */
  function PercentualTotal(os: seq<Orcamento>, fs: seq<Fornecedor>, m: MonthKey): (r: int)
    ensures TotalPrevisto(os, m) <= 0 ==> r == 0
    ensures TotalPrevisto(os, m) > 0 ==>
              2 * TotalPrevisto(os, m) * r <= 200 * TotalRealizado(fs, m) + TotalPrevisto(os, m)
                                             < 2 * TotalPrevisto(os, m) * (r + 1)
  {
    var previsto, realizado := TotalPrevisto(os, m), TotalRealizado(fs, m);
    var r := Execution(realizado, previsto);
    assert previsto > 0 ==> 2 * previsto * r <= 200 * realizado + previsto < 2 * previsto * (r + 1);
    r
  }

  /** An item row's execution percentage. */
  function ItemPercentual(it: Item, fs: seq<Fornecedor>, m: MonthKey): (r: int)
    ensures it.valorPrevisto <= 0 ==> r == 0
    ensures it.valorPrevisto > 0 ==>
              2 * it.valorPrevisto * r <= 200 * Realizado(fs, m, it.departamento) + it.valorPrevisto
                                          < 2 * it.valorPrevisto * (r + 1)
  {
    var previsto, realizado := it.valorPrevisto, Realizado(fs, m, it.departamento);
    var r := Execution(realizado, previsto);
    assert previsto > 0 ==> 2 * previsto * r <= 200 * realizado + previsto < 2 * previsto * (r + 1);
    r
  }

  // ---------------------------------------------------------------- lemmas

  lemma DivBracket(x: int, d: int)
    requires d > 0
    ensures d * (x / d) <= x < d * (x / d + 1)
  {
  }

  /** Item removal works piecewise over a concatenation; with
      `WithoutItemSingle`, the items kept stay in order with their multiplicity. */
  lemma {:induction false} WithoutItemAppend(a: seq<Item>, b: seq<Item>, itemId: string)
    ensures WithoutItem(a + b, itemId) == WithoutItem(a, itemId) + WithoutItem(b, itemId)
    decreases |a|
  {
    if a == [] {
      assert a + b == b;
    } else {
      assert (a + b)[0] == a[0] && (a + b)[1..] == a[1..] + b;
      WithoutItemAppend(a[1..], b, itemId);
    }
  }

  /** A single item is kept exactly when its id differs. */
  lemma WithoutItemSingle(x: Item, itemId: string)
    ensures WithoutItem([x], itemId) == if x.id == itemId then [] else [x]
  {
    assert [x][1..] == [];
  }

  /** Dropping empty buckets works piecewise over a concatenation; with
      `DropEmptySingle`, the buckets kept stay in order. */
  lemma {:induction false} DropEmptyAppend(a: seq<Orcamento>, b: seq<Orcamento>)
    ensures DropEmpty(a + b) == DropEmpty(a) + DropEmpty(b)
    decreases |a|
  {
    if a == [] {
      assert a + b == b;
    } else {
      assert (a + b)[0] == a[0] && (a + b)[1..] == a[1..] + b;
      DropEmptyAppend(a[1..], b);
    }
  }

  /** A single bucket is kept exactly when it holds an item. */
  lemma DropEmptySingle(o: Orcamento)
    ensures DropEmpty([o]) == if o.itens == [] then [] else [o]
  {
    assert [o][1..] == [];
  }

  /** The bucket `DeleteItem` makes of `o` before dropping empty ones. */
  function EmptiedOne(o: Orcamento, m: MonthKey, itemId: string): Orcamento
  {
    if InMonth(o, m) then o.(itens := WithoutItem(o.itens, itemId)) else o
  }

  /** Deleting an item works bucket by bucket over a concatenation, and a
      single bucket is kept, with the item removed when it is of the month,
      exactly when some item remains: the surviving buckets keep their order
      and the other months' buckets are untouched. */
  lemma DeleteItemAppend(a: seq<Orcamento>, b: seq<Orcamento>, m: MonthKey, itemId: string)
    ensures DeleteItem(a + b, m, itemId) == DeleteItem(a, m, itemId) + DeleteItem(b, m, itemId)
  {
    assert Emptied(a + b, m, itemId) == Emptied(a, m, itemId) + Emptied(b, m, itemId);
    DropEmptyAppend(Emptied(a, m, itemId), Emptied(b, m, itemId));
  }

  lemma DeleteItemSingle(o: Orcamento, m: MonthKey, itemId: string)
    ensures DeleteItem([o], m, itemId) == if EmptiedOne(o, m, itemId).itens == [] then [] else [EmptiedOne(o, m, itemId)]
  {
    assert Emptied([o], m, itemId) == [EmptiedOne(o, m, itemId)];
    DropEmptySingle(EmptiedOne(o, m, itemId));
  }

  /** The month's invoices work piecewise over a concatenation; with
      `MonthInvoicesSingle`, they keep the flat list's order and multiplicity. */
  lemma {:induction false} MonthInvoicesAppend(a: seq<Located>, b: seq<Located>, m: MonthKey)
    ensures MonthInvoices(a + b, m) == MonthInvoices(a, m) + MonthInvoices(b, m)
    decreases |a|
  {
    if a == [] {
      assert a + b == b;
    } else {
      assert (a + b)[0] == a[0] && (a + b)[1..] == a[1..] + b;
      MonthInvoicesAppend(a[1..], b, m);
    }
  }

  /** A single entry contributes its payment exactly when it is an invoice
      filed under the month. */
  lemma MonthInvoicesSingle(l: Located, m: MonthKey)
    ensures MonthInvoices([l], m) == if l.p.tipo == Fatura && EffectiveDate(l.p).Key() == m then [l.p] else []
  {
    assert [l][1..] == [];
  }

  lemma {:induction false} MonthIndexIsFirst(os: seq<Orcamento>, m: MonthKey, k: nat)
    requires k < |os| && InMonth(os[k], m)
    requires forall j :: 0 <= j < k ==> !InMonth(os[j], m)
    ensures MonthIndex(os, m) == Some(k)
    decreases k
  {
    if k > 0 {
      assert !InMonth(os[0], m);
      MonthIndexIsFirst(os[1..], m, k - 1);
    }
  }

  lemma ItemsTotalAppend(items: seq<Item>, x: Item)
    ensures ItemsTotal(items + [x]) == ItemsTotal(items) + x.valorPrevisto
  {
    assert (items + [x])[..|items|] == items;
  }

  /** Adding never opens a second bucket for a month. */
  lemma AddKeepsUniqueMonths(os: seq<Orcamento>, m: MonthKey, d: Draft, freshId: string)
    requires UniqueMonths(os)
    ensures UniqueMonths(AddItem(os, m, d, freshId))
  {
    var r := AddItem(os, m, d, freshId);
    if Complete(d) && Current(os, m).None? {
      forall i, j | 0 <= i < j < |r|
        ensures !(r[i].ano == r[j].ano && r[i].mes == r[j].mes)
      {
        if j == |os| {
          assert r[i] in os;
        }
      }
    }
  }

  /** After a valid add, the month's bucket ends with the new item and its
      planned total grows by the item's amount. */
  lemma AddShowsItem(os: seq<Orcamento>, m: MonthKey, d: Draft, freshId: string)
    requires Complete(d)
    ensures var r := AddItem(os, m, d, freshId);
            Current(r, m).Some?
            && Current(r, m).value.itens[|Current(r, m).value.itens| - 1] == NewItem(d, freshId)
            && TotalPrevisto(r, m) == TotalPrevisto(os, m) + d.valorPrevisto.value
  {
    var r := AddItem(os, m, d, freshId);
    match MonthIndex(os, m)
    case Some(k) =>
      assert r[k] == os[k].(itens := os[k].itens + [NewItem(d, freshId)]);
      MonthIndexIsFirst(r, m, k);
      ItemsTotalAppend(os[k].itens, NewItem(d, freshId));
    case None =>
      MonthIndexIsFirst(r, m, |os|);
      assert ItemsTotal([NewItem(d, freshId)]) == ItemsTotal([]) + d.valorPrevisto.value;
  }

  /** Editing never changes which months have buckets. */
  lemma EditKeepsUniqueMonths(os: seq<Orcamento>, m: MonthKey, sel: Option<Item>)
    requires UniqueMonths(os)
    ensures UniqueMonths(EditItem(os, m, sel))
  {
  }

  /** Deleting never creates a bucket, so months stay unique. */
  lemma DeleteKeepsUniqueMonths(os: seq<Orcamento>, m: MonthKey, itemId: string)
    requires UniqueMonths(os)
    ensures UniqueMonths(DeleteItem(os, m, itemId))
  {
    var e := Emptied(os, m, itemId);
    assert UniqueMonths(e);
    DropEmptyKeepsUniqueMonths(e);
  }

  lemma {:induction false} DropEmptyKeepsUniqueMonths(os: seq<Orcamento>)
    requires UniqueMonths(os)
    ensures UniqueMonths(DropEmpty(os))
    decreases |os|
  {
    if os != [] {
      var tail := os[1..];
      assert UniqueMonths(tail) by {
        forall i, j | 0 <= i < j < |tail|
          ensures !(tail[i].ano == tail[j].ano && tail[i].mes == tail[j].mes)
        {
          assert tail[i] == os[i + 1] && tail[j] == os[j + 1];
        }
      }
      DropEmptyKeepsUniqueMonths(tail);
      if os[0].itens != [] {
        var rest := DropEmpty(tail);
        var r := [os[0]] + rest;
        forall i, j | 0 <= i < j < |r|
          ensures !(r[i].ano == r[j].ano && r[i].mes == r[j].mes)
        {
          if i == 0 {
            assert r[j] == rest[j - 1];
            assert rest[j - 1] in tail;
            var k :| 0 <= k < |tail| && tail[k] == rest[j - 1];
            assert os[k + 1] == r[j];
          } else {
            assert r[i] == rest[i - 1] && r[j] == rest[j - 1];
          }
        }
      }
    }
  }

  /** Every invoice of the month opens a department entry in the keyed record,
      whether or not the budget plans that department. */
  lemma InvoiceDepartmentListed(fs: seq<Fornecedor>, m: MonthKey, p: Pagamento)
    requires p in MonthInvoices(AllPayments(fs), m)
    ensures G.HasKey(G.GroupBy(Spent(fs, m)), p.departamento)
  {
    var ps := MonthInvoices(AllPayments(fs), m);
    var i :| 0 <= i < |ps| && ps[i] == p;
    assert Spent(fs, m)[i].key == p.departamento;
  }
}
