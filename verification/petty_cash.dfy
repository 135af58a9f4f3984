/**
 * The petty-cash ledger: one bucket per calendar month, each holding its
 * movements and a running balance, with withdrawals checked against the
 * balance of an existing bucket.
 */
module PettyCash {
  import opened Common

  datatype MovTipo = Entrada | Saida

  /** A recorded petty-cash movement. */
  datatype Movimento = Movimento(
    id: string,
    data: Date,
    tipo: MovTipo,
    valor: int,
    descricao: string,
    pagamentoId: Option<string>,
    pagamentoReferencia: Option<string>,
    fornecedorNome: Option<string>)

  /** A month's bucket. */
  datatype Fundo = Fundo(id: string, mes: MonthKey, movimentos: seq<Movimento>, saldoInicial: int, saldoFinal: int)

  /** A movement as callers submit it: every field may be missing. */
  datatype Pedido = Pedido(
    data: Option<Date>,
    tipo: Option<MovTipo>,
    valor: Option<int>,
    descricao: Option<string>,
    pagamentoId: Option<string>,
    pagamentoReferencia: Option<string>,
    fornecedorNome: Option<string>)

  /** The new bucket list together with the id returned to the caller
      (`None` for the `null` of a rejected movement). */
  datatype Outcome = Outcome(fundos: seq<Fundo>, id: Option<string>)

  /** What a movement adds to a balance. */
  function Signed(tipo: MovTipo, valor: int): (d: int)
    ensures tipo == Entrada ==> d == valor
    ensures tipo == Saida ==> d == -valor
  {
    if tipo == Entrada then valor else -valor
  }

  /** Net effect of a list of movements. */
  function NetOf(ms: seq<Movimento>): int
  {
    if ms == [] then 0 else NetOf(ms[..|ms| - 1]) + Signed(ms[|ms| - 1].tipo, ms[|ms| - 1].valor)
  }

  /** A bucket's balance agrees with its opening balance and its movements. */
  predicate Balanced(f: Fundo)
  {
    f.saldoFinal == f.saldoInicial + NetOf(f.movimentos)
  }

  /** First bucket of the movement's calendar month. */
  function FindBucket(fs: seq<Fundo>, key: MonthKey): (r: Option<Fundo>)
    ensures r.Some? ==> r.value in fs && r.value.mes == key
    ensures r.None? ==> forall f :: f in fs ==> f.mes != key
    ensures r.Some? ==> exists k :: 0 <= k < |fs| && fs[k] == r.value && forall j :: 0 <= j < k ==> fs[j].mes != key
  {
    if fs == [] then None
    else if fs[0].mes == key then Some(fs[0])
    else
      var r := FindBucket(fs[1..], key);
      if r.Some? then
        var k :| 0 <= k < |fs[1..]| && fs[1..][k] == r.value && forall j :: 0 <= j < k ==> fs[1..][j].mes != key;
        assert fs[k + 1] == r.value;
        r
      else r
  }

  /** The movement that a request records. */
  function Completed(req: Pedido, now: Date, novoId: string): Movimento
    requires req.tipo.Some? && req.valor.Some?
  {
    Movimento(novoId,
              if req.data.Some? then req.data.value else now,
              req.tipo.value, req.valor.value,
              if Present(req.descricao) then req.descricao.value else "Movimento automático",
              req.pagamentoId, req.pagamentoReferencia, req.fornecedorNome)
  }

  /** The date a request is booked under. */
  function BookingDate(req: Pedido, now: Date): Date
  {
    if req.data.Some? then req.data.value else now
  }

  /** Whether the request is turned away: a missing type or a missing or zero
      amount, or a withdrawal above the balance of an existing month bucket. */
  predicate Rejected(fs: seq<Fundo>, req: Pedido, now: Date)
  {
    req.tipo.None? || !NonZero(req.valor)
    || (var b := FindBucket(fs, BookingDate(req, now).Key());
        b.Some? && req.tipo.value == Saida && b.value.saldoFinal < req.valor.value)
  }

  /** `adicionarMovimentoFundoManeio`. */
  function AdicionarMovimento(fs: seq<Fundo>, req: Pedido, now: Date, novoId: string): (r: Outcome)
    ensures Rejected(fs, req, now) <==> r.id.None?
    ensures Rejected(fs, req, now) ==> r.fundos == fs
    ensures !Rejected(fs, req, now) ==> r.id == Some(novoId)
    ensures !Rejected(fs, req, now) && FindBucket(fs, BookingDate(req, now).Key()).Some? ==>
              var b := FindBucket(fs, BookingDate(req, now).Key()).value;
              |r.fundos| == |fs|
              && (forall i :: 0 <= i < |fs| && fs[i].id != b.id ==> r.fundos[i] == fs[i])
              && (forall i :: 0 <= i < |fs| && fs[i].id == b.id ==>
                    r.fundos[i].movimentos == fs[i].movimentos + [Completed(req, now, novoId)]
                    && r.fundos[i].saldoFinal == fs[i].saldoFinal + Signed(req.tipo.value, req.valor.value)
                    && r.fundos[i].saldoInicial == fs[i].saldoInicial && r.fundos[i].mes == fs[i].mes)
    ensures !Rejected(fs, req, now) && FindBucket(fs, BookingDate(req, now).Key()).None? ==>
              r.fundos == fs + [Fundo(novoId, BookingDate(req, now).Key(), [Completed(req, now, novoId)], 0,
                                      Signed(req.tipo.value, req.valor.value))]
  {
    if req.tipo.None? || !NonZero(req.valor) then Outcome(fs, None)
    else
      var m := Completed(req, now, novoId);
      var key := m.data.Key();
      match FindBucket(fs, key)
      case Some(b) =>
        if m.tipo == Saida && b.saldoFinal < m.valor then Outcome(fs, None)
        else
          Outcome(seq(|fs|, i requires 0 <= i < |fs| =>
                    if fs[i].id == b.id
                    then fs[i].(movimentos := fs[i].movimentos + [m], saldoFinal := fs[i].saldoFinal + Signed(m.tipo, m.valor))
                    else fs[i]),
                  Some(novoId))
      case None =>
        Outcome(fs + [Fundo(novoId, key, [m], 0, Signed(m.tipo, m.valor))], Some(novoId))
  }

  // ---------------------------------------------------------------- lemmas

  lemma NetOfAppend(ms: seq<Movimento>, m: Movimento)
    ensures NetOf(ms + [m]) == NetOf(ms) + Signed(m.tipo, m.valor)
  {
    assert (ms + [m])[..|ms + [m]| - 1] == ms;
  }

  /** Every movement keeps every bucket's balance equal to its opening balance
      plus the net of its movements. */
  lemma AddKeepsBalanced(fs: seq<Fundo>, req: Pedido, now: Date, novoId: string)
    requires forall f :: f in fs ==> Balanced(f)
    ensures forall f :: f in AdicionarMovimento(fs, req, now, novoId).fundos ==> Balanced(f)
  {
    var r := AdicionarMovimento(fs, req, now, novoId);
    if !Rejected(fs, req, now) {
      var m := Completed(req, now, novoId);
      NetOfAppend([], m);
      assert [] + [m] == [m];
      forall i | 0 <= i < |fs|
        ensures Balanced(r.fundos[i])
      {
        assert fs[i] in fs;
        NetOfAppend(fs[i].movimentos, m);
      }
      forall f | f in r.fundos
        ensures Balanced(f)
      {
        var i :| 0 <= i < |r.fundos| && r.fundos[i] == f;
      }
    }
  }

  /** No two buckets share an id. */
  predicate UniqueIds(fs: seq<Fundo>)
  {
    forall i, j :: 0 <= i < j < |fs| ==> fs[i].id != fs[j].id
  }

  /** On an existing bucket, with bucket ids unique, the check keeps balances
      non-negative for positive amounts. */
  lemma ExistingBucketStaysNonNegative(fs: seq<Fundo>, req: Pedido, now: Date, novoId: string)
    requires UniqueIds(fs)
    requires forall f :: f in fs ==> f.saldoFinal >= 0
    requires req.valor.Some? && req.valor.value > 0
    requires FindBucket(fs, BookingDate(req, now).Key()).Some?
    ensures forall f :: f in AdicionarMovimento(fs, req, now, novoId).fundos ==> f.saldoFinal >= 0
  {
    var r := AdicionarMovimento(fs, req, now, novoId);
    if !Rejected(fs, req, now) {
      var b := FindBucket(fs, BookingDate(req, now).Key()).value;
      var j :| 0 <= j < |fs| && fs[j] == b;
      forall i | 0 <= i < |fs|
        ensures r.fundos[i].saldoFinal >= 0
      {
        assert fs[i] in fs;
        if fs[i].id == b.id {
          assert i == j;
        }
      }
      forall f | f in r.fundos
        ensures f.saldoFinal >= 0
      {
        var i :| 0 <= i < |r.fundos| && r.fundos[i] == f;
      }
    }
  }

  /** A withdrawal for a month with no bucket is not checked: the new bucket
      starts with a negative balance. */
  lemma NewBucketWithdrawalUnchecked(fs: seq<Fundo>, req: Pedido, now: Date, novoId: string)
    requires req.tipo == Some(Saida) && req.valor.Some? && req.valor.value > 0
    requires FindBucket(fs, BookingDate(req, now).Key()).None?
    ensures var r := AdicionarMovimento(fs, req, now, novoId);
            r.id == Some(novoId) && |r.fundos| == |fs| + 1 && r.fundos[|fs|].saldoFinal == -req.valor.value
  {
  }

  /** A March bucket at 0: an entrada of 5,000 brings it to 5,000; a saida of
      6,000 is turned away and leaves 5,000; a saida of 4,000 leaves 1,000.
      Amounts are in minor units. */
  lemma MarchScenario(now: Date)
    ensures var march := Date(2025, 2, 0);
            var r1 := AdicionarMovimento([Fundo("m", march.Key(), [], 0, 0)],
                        Pedido(Some(march), Some(Entrada), Some(5000 * MinorPerUnit), None, None, None, None), now, "1");
            var r2 := AdicionarMovimento(r1.fundos,
                        Pedido(Some(march), Some(Saida), Some(6000 * MinorPerUnit), None, None, None, None), now, "2");
            var r3 := AdicionarMovimento(r2.fundos,
                        Pedido(Some(march), Some(Saida), Some(4000 * MinorPerUnit), None, None, None, None), now, "3");
            r1.fundos[0].saldoFinal == 5000 * MinorPerUnit
            && r2.id.None? && r2.fundos[0].saldoFinal == 5000 * MinorPerUnit
            && r3.id == Some("3") && r3.fundos[0].saldoFinal == 1000 * MinorPerUnit
  {
  }
}
