/**
 * Importing a bank statement. Each spreadsheet row, once its cells are read,
 * becomes a transaction: the bank's layout decides its kind and amount, the
 * description decides its method, and a cheque row whose number is in the
 * cheque registry takes over that cheque's link. Rows without a valid date
 * or a positive amount are dropped.
 */
module StatementImport {
  import opened Common
  import opened Domain
  import opened Text
  import CT = ChequeText

  /** The statement layouts: BCI and the generic one carry one signed amount,
      BIM carries a credit and a debit column. */
  datatype Bank = Bci | Bim | Generic

  /** A row with its cells read. `None` stands for a date that is not valid,
      or for an amount that does not parse as a number. */
  datatype Row = Row(date: Option<Date>, descricao: string, valor: Option<int>, credito: Option<int>, debito: Option<int>)

  /** The kind and the amount a row stands for; `None` is an unparseable amount. */
  function Amount(bank: Bank, row: Row): (r: (TxTipo, Option<int>))
    ensures bank != Bim ==> (r.1.None? <==> row.valor.None?)
    ensures bank != Bim && row.valor.Some? ==> r.1.value >= 0 && (r.0 == Credito <==> row.valor.value >= 0)
    ensures bank == Bim ==> (r.0 == Credito <==> row.credito.Some? && row.credito.value > 0)
    ensures bank == Bim ==> r.1 == if r.0 == Credito then row.credito else row.debito
  {
    match bank
    case Bim =>
      if row.credito.Some? && row.credito.value > 0 then (Credito, row.credito) else (Debito, row.debito)
    case _ =>
      match row.valor
      case None => (Debito, None)
      case Some(v) => if v >= 0 then (Credito, Some(v)) else (Debito, Some(-v))
  }

  predicate ChequeWords(d: string)
  {
    Contains(Lower(d), "cheque") || Contains(Lower(d), "ch ")
  }

  predicate TransferWords(d: string)
  {
    Contains(Lower(d), "transf") || Contains(Lower(d), "transfer") || Contains(Lower(d), "trf")
  }

  predicate DepositWords(d: string)
  {
    Contains(Lower(d), "depósito") || Contains(Lower(d), "deposito")
  }

  /** The method guessed from a description: cheque words first, then
      transfer words, then deposit words. */
  function DetectMetodo(d: string): (m: Metodo)
    ensures m == ChequeMetodo || m == TransferenciaPlain || m == Deposito || m == Outro
    ensures m == ChequeMetodo <==> ChequeWords(d)
    ensures m == TransferenciaPlain <==> !ChequeWords(d) && TransferWords(d)
    ensures m == Deposito <==> !ChequeWords(d) && !TransferWords(d) && DepositWords(d)
  {
    if ChequeWords(d) then ChequeMetodo
    else if TransferWords(d) then TransferenciaPlain
    else if DepositWords(d) then Deposito
    else Outro
  }

  /** The registered cheque a row names: a row with cheque words, a number the
      cheque patterns find, a readable registry and a cheque with that number. */
  function RegistryCheque(d: string, cheques: Stored<Cheque>): (r: Option<Cheque>)
    ensures r.Some? ==> ChequeWords(d) && cheques.Parsed? && r.value in cheques.items
                        && CT.ExtractChequeNumber(d) == Some(r.value.numero)
    ensures r.None? <==> !ChequeWords(d) || CT.ExtractChequeNumber(d).None? || !cheques.Parsed?
                         || FindChequeByNumero(cheques.items, CT.ExtractChequeNumber(d).value).None?
  {
    if !ChequeWords(d) then None
    else match CT.ExtractChequeNumber(d)
      case None => None
      case Some(n) =>
        match cheques
        case Parsed(cs) => FindChequeByNumero(cs, n)
        case _ => None
  }

  /** The id a row gets from its position in the sheet and the import stamp. */
  function RowId(index: nat, stamp: string): string
  {
    "trans-" + NatToString(index) + "-" + stamp
  }

  /** One row of the mapping and the filter that follows it. */
  function ImportRow(bank: Bank, row: Row, index: nat, stamp: string, cheques: Stored<Cheque>): (r: Option<Transacao>)
    ensures r.Some? <==> row.date.Some? && Amount(bank, row).1.Some? && Amount(bank, row).1.value > 0
    ensures r.Some? ==>
              var t := r.value;
              t.id == RowId(index, stamp) && t.data == row.date.value && t.descricao == row.descricao
              && t.tipo == Amount(bank, row).0 && Some(t.valor) == Amount(bank, row).1 && t.valor > 0
              && t.metodo == Some(DetectMetodo(row.descricao))
    ensures r.Some? && RegistryCheque(row.descricao, cheques).Some? ==>
              var c := RegistryCheque(row.descricao, cheques).value;
              r.value.chequeId == Some(c.id) && r.value.chequeNumero == Some(c.numero)
              && r.value.pagamentoId == c.pagamentoId && (r.value.reconciliado <==> Present(c.pagamentoId))
    ensures r.Some? && RegistryCheque(row.descricao, cheques).None? ==>
              !r.value.reconciliado && r.value.pagamentoId.None? && r.value.chequeId.None? && r.value.chequeNumero.None?
  {
    var (tipo, valor) := Amount(bank, row);
    if row.date.None? || valor.None? || valor.value <= 0 then None
    else
      var id := RowId(index, stamp);
      match RegistryCheque(row.descricao, cheques)
      case Some(c) =>
        Some(Transacao(id, row.date.value, row.descricao, valor.value, tipo, Present(c.pagamentoId), c.pagamentoId,
                       Some(c.id), Some(c.numero), Some(ChequeMetodo)))
      case None =>
        Some(Transacao(id, row.date.value, row.descricao, valor.value, tipo, false, None, None, None,
                       Some(DetectMetodo(row.descricao))))
  }

  /** The mapping of the row at position `k`. */
  function ImportAt(bank: Bank, rows: seq<Row>, k: nat, stamp: string, cheques: Stored<Cheque>): Option<Transacao>
    requires k < |rows|
  {
    ImportRow(bank, rows[k], k, stamp, cheques)
  }

  /** Every row mapped, in sheet order. */
  function Mapped(bank: Bank, rows: seq<Row>, stamp: string, cheques: Stored<Cheque>): (m: seq<Option<Transacao>>)
    ensures |m| == |rows|
    ensures forall k :: 0 <= k < |rows| ==> m[k] == ImportAt(bank, rows, k, stamp, cheques)
  {
    seq(|rows|, k requires 0 <= k < |rows| => ImportAt(bank, rows, k, stamp, cheques))
  }

  /** The present values of a list of options, in order. */
  function Somes<T>(xs: seq<Option<T>>): (r: seq<T>)
    ensures |r| <= |xs|
    ensures forall k :: 0 <= k < |xs| && xs[k].Some? ==> xs[k].value in r
    ensures forall j :: 0 <= j < |r| ==> exists k :: 0 <= k < |xs| && xs[k] == Some(r[j])
  {
    if xs == [] then []
    else
      var n := |xs| - 1;
      var prefix := Somes(xs[..n]);
      assert forall k :: 0 <= k < n ==> xs[..n][k] == xs[k];
      match xs[n]
      case Some(t) => prefix + [t]
      case None => prefix
  }

  /** The mapped and filtered statement, in sheet order. */
  function ImportRows(bank: Bank, rows: seq<Row>, stamp: string, cheques: Stored<Cheque>): (r: seq<Transacao>)
    ensures |r| <= |rows|
    ensures forall k :: 0 <= k < |rows| && ImportAt(bank, rows, k, stamp, cheques).Some? ==>
              ImportAt(bank, rows, k, stamp, cheques).value in r
    ensures forall j :: 0 <= j < |r| ==>
              exists k :: 0 <= k < |rows| && ImportAt(bank, rows, k, stamp, cheques) == Some(r[j])
  {
    Somes(Mapped(bank, rows, stamp, cheques))
  }

  // ---------------------------------------------------------------- lemmas

  /** A signed layout's kind and amount give back the signed amount. */
  lemma SignedAmountRecovered(bank: Bank, row: Row)
    requires bank != Bim && row.valor.Some?
    ensures var (tipo, valor) := Amount(bank, row);
            row.valor.value == if tipo == Credito then valor.value else -valor.value
  {
  }

  /** Every imported transaction has a positive amount and a date. */
  lemma ImportedArePositive(bank: Bank, rows: seq<Row>, stamp: string, cheques: Stored<Cheque>)
    ensures forall t :: t in ImportRows(bank, rows, stamp, cheques) ==> t.valor > 0
  {
    var r := ImportRows(bank, rows, stamp, cheques);
    forall t | t in r
      ensures t.valor > 0
    {
      var j :| 0 <= j < |r| && r[j] == t;
      var k :| 0 <= k < |rows| && ImportAt(bank, rows, k, stamp, cheques) == Some(r[j]);
    }
  }

  /** Different positions give different ids, whatever the stamp. */
  lemma RowIdInjective(i: nat, j: nat, stamp: string)
    requires i != j
    ensures RowId(i, stamp) != RowId(j, stamp)
  {
    var a, b := NatToString(i), NatToString(j);
    var x, y := RowId(i, stamp), RowId(j, stamp);
    assert a != b by { assert DigitsValue(a) == i && DigitsValue(b) == j; }
    if |a| == |b| {
      var k :| 0 <= k < |a| && a[k] != b[k];
      assert x[6 + k] == a[k] && y[6 + k] == b[k];
    } else if |a| < |b| {
      assert x[6 + |a|] == '-' && y[6 + |a|] == b[|a|];
    } else {
      assert y[6 + |b|] == '-' && x[6 + |b|] == a[|b|];
    }
  }

  /** Every imported transaction took its id from a row before position `n`. */
  lemma ImportedIdsBelow(bank: Bank, rows: seq<Row>, stamp: string, cheques: Stored<Cheque>, n: nat)
    requires n == |rows|
    ensures forall t :: t in ImportRows(bank, rows, stamp, cheques) ==> exists k :: 0 <= k < n && t.id == RowId(k, stamp)
  {
    var r := ImportRows(bank, rows, stamp, cheques);
    forall t | t in r
      ensures exists k :: 0 <= k < n && t.id == RowId(k, stamp)
    {
      var j :| 0 <= j < |r| && r[j] == t;
      var k :| 0 <= k < |rows| && ImportAt(bank, rows, k, stamp, cheques) == Some(r[j]);
      assert t.id == RowId(k, stamp);
    }
  }

  /** No two transactions of a list share an id. */
  predicate DistinctIds(r: seq<Transacao>)
  {
    forall a, b :: 0 <= a < b < |r| ==> r[a].id != r[b].id
  }

  lemma DistinctAppend(r: seq<Transacao>, x: Transacao)
    requires DistinctIds(r)
    requires forall t :: t in r ==> t.id != x.id
    ensures DistinctIds(r + [x])
  {
    var s := r + [x];
    forall a, b | 0 <= a < b < |s|
      ensures s[a].id != s[b].id
    {
      assert s[a] == r[a];
      if b < |r| {
        assert s[b] == r[b];
      } else {
        assert r[a] in r;
      }
    }
  }

  /** The last row's transaction, when kept, comes after the earlier rows' ones. */
  lemma ImportRowsLast(bank: Bank, rows: seq<Row>, stamp: string, cheques: Stored<Cheque>)
    requires rows != []
    ensures var n := |rows| - 1;
            var last := ImportRow(bank, rows[n], n, stamp, cheques);
            ImportRows(bank, rows, stamp, cheques)
              == ImportRows(bank, rows[..n], stamp, cheques) + (if last.Some? then [last.value] else [])
  {
    var n := |rows| - 1;
    var xs := Mapped(bank, rows, stamp, cheques);
    assert xs[..n] == Mapped(bank, rows[..n], stamp, cheques);
    SomesLast(xs);
  }

  lemma SomesLast<T>(xs: seq<Option<T>>)
    requires xs != []
    ensures var n := |xs| - 1;
            Somes(xs) == Somes(xs[..n]) + (if xs[n].Some? then [xs[n].value] else [])
  {
  }

  /** Dropping the absent values works piecewise over a concatenation, so
      the present values keep their order and multiplicity. */
  lemma {:induction false} SomesAppend<T>(a: seq<Option<T>>, b: seq<Option<T>>)
    ensures Somes(a + b) == Somes(a) + Somes(b)
    decreases |b|
  {
    if b == [] {
      assert a + b == a;
    } else {
      var n := |b| - 1;
      assert (a + b)[..|a + b| - 1] == a + b[..n] && (a + b)[|a + b| - 1] == b[n];
      SomesAppend(a, b[..n]);
      SomesLast(a + b);
      SomesLast(b);
    }
  }

  /** The transactions of one import carry pairwise different ids. */
  lemma {:induction false} ImportedIdsDistinct(bank: Bank, rows: seq<Row>, stamp: string, cheques: Stored<Cheque>)
    ensures DistinctIds(ImportRows(bank, rows, stamp, cheques))
    decreases |rows|
  {
    if rows != [] {
      var n := |rows| - 1;
      var prefix := ImportRows(bank, rows[..n], stamp, cheques);
      ImportedIdsDistinct(bank, rows[..n], stamp, cheques);
      var last := ImportRow(bank, rows[n], n, stamp, cheques);
      ImportRowsLast(bank, rows, stamp, cheques);
      if last.Some? {
        ImportedIdsBelow(bank, rows[..n], stamp, cheques, n);
        forall t | t in prefix
          ensures t.id != last.value.id
        {
          var k :| 0 <= k < n && t.id == RowId(k, stamp);
          RowIdInjective(k, n, stamp);
        }
        DistinctAppend(prefix, last.value);
      }
    }
  }

  /** A cheque row whose cheque is registered and already tied to a payment
      arrives reconciled, so the automatic matcher passes over it. */
  lemma RegisteredChequeArrivesReconciled(bank: Bank, row: Row, index: nat, stamp: string, cheques: Stored<Cheque>)
    requires ImportRow(bank, row, index, stamp, cheques).Some?
    requires RegistryCheque(row.descricao, cheques).Some?
    requires Present(RegistryCheque(row.descricao, cheques).value.pagamentoId)
    ensures ImportRow(bank, row, index, stamp, cheques).value.reconciliado
    ensures ImportRow(bank, row, index, stamp, cheques).value.metodo == Some(ChequeMetodo)
  {
  }

  /** "CH12" yields a cheque number to the cheque patterns, but the row is not
      taken for a cheque: the keyword test wants "cheque" or "ch " with a space. */
  lemma ShortChequeNotDetected()
    ensures CT.ExtractChequeNumber("CH12").Some?
    ensures DetectMetodo("CH12") == Outro
  {
    ShortChequeExtracted();
    var l := Lower("CH12");
    assert |l| == 4 && l[0] == 'c' && l[1] == 'h' && l[2] == '1' && l[3] == '2';
    NoKeywordIn(l);
  }

  lemma ShortChequeExtracted()
    ensures CT.ExtractChequeNumber("CH12").Some?
  {
    var s := "CH12";
    CT.WsEndIs(s, 2, 2);
    CT.DigitEndIs(s, 2, 4);
    assert CT.WordAt(s, 0, "ch");
    assert CT.MatchAt(s, 0, CT.ChShort).Some?;
    assert !CT.ExtractChequeNumber(s).None?;
  }

  /** The lower-cased "CH12" holds none of the method keywords. */
  lemma NoKeywordIn(l: string)
    requires |l| == 4 && l[0] == 'c' && l[1] == 'h' && l[2] == '1' && l[3] == '2'
    ensures !Contains(l, "cheque") && !Contains(l, "ch ")
    ensures !Contains(l, "transf") && !Contains(l, "transfer") && !Contains(l, "trf")
    ensures !Contains(l, "depósito") && !Contains(l, "deposito")
  {
    NoLongerSubstring(l, "cheque");
    NoLongerSubstring(l, "transf");
    NoLongerSubstring(l, "transfer");
    NoLongerSubstring(l, "depósito");
    NoLongerSubstring(l, "deposito");
    MissingChar(l, "ch ", 2);
    MissingChar(l, "trf", 2);
  }

  /** A text never contains a longer one. */
  lemma {:induction false} NoLongerSubstring(s: string, sub: string)
    requires |sub| > |s|
    ensures !Contains(s, sub)
    decreases |s|
  {
    if s != [] {
      NoLongerSubstring(s[1..], sub);
    }
  }

  /** A text never contains one holding a character it lacks. */
  lemma {:induction false} MissingChar(s: string, sub: string, k: nat)
    requires k < |sub| && forall i :: 0 <= i < |s| ==> s[i] != sub[k]
    ensures !Contains(s, sub)
    decreases |s|
  {
    if s != [] {
      assert k >= |s| || s[k] != sub[k];
      assert !(sub <= s);
      MissingChar(s[1..], sub, k);
    }
  }
}
