/**
 * Per-key totals as the reports build them: a record keyed by department or
 * category, filled in list order, then listed with the largest total first.
 */
module Grouping {
  import opened Common

  /** One amount under one key, or, after grouping, one key's total. */
  datatype Bucket = Bucket(key: string, valor: int)

  function Total(bs: seq<Bucket>): int
  {
    if bs == [] then 0 else Total(bs[..|bs| - 1]) + bs[|bs| - 1].valor
  }

  /** Sum of the amounts under one key. */
  function KeyTotal(bs: seq<Bucket>, key: string): int
  {
    if bs == [] then 0
    else KeyTotal(bs[..|bs| - 1], key) + (if bs[|bs| - 1].key == key then bs[|bs| - 1].valor else 0)
  }

  predicate HasKey(bs: seq<Bucket>, key: string)
  {
    exists i :: 0 <= i < |bs| && bs[i].key == key
  }

  predicate DistinctKeys(bs: seq<Bucket>)
  {
    forall i, j :: 0 <= i < j < |bs| ==> bs[i].key != bs[j].key
  }

  /** Position of the first bucket with the key. */
  function IndexOf(bs: seq<Bucket>, key: string): (r: Option<nat>)
    ensures r.Some? ==> r.value < |bs| && bs[r.value].key == key
    ensures r.None? <==> !HasKey(bs, key)
  {
    if bs == [] then None
    else if bs[0].key == key then Some(0)
    else
      match IndexOf(bs[1..], key)
      case Some(i) => Some(i + 1)
      case None =>
        assert forall i :: 1 <= i < |bs| ==> bs[i].key == bs[1..][i - 1].key;
        None
  }

  /** Accumulating an amount under a key: the amount joins the key's bucket,
      counting from zero when the key is new, which opens a new bucket at the
      end. */
  function AddTo(gs: seq<Bucket>, b: Bucket): (r: seq<Bucket>)
    ensures HasKey(gs, b.key) ==> |r| == |gs|
    ensures !HasKey(gs, b.key) ==> |r| == |gs| + 1 && r[|gs|] == b
    ensures forall i :: 0 <= i < |gs| ==> r[i].key == gs[i].key
    ensures forall i :: 0 <= i < |gs| ==> r[i].valor == gs[i].valor + (if gs[i].key == b.key && i == IndexOf(gs, b.key).value then b.valor else 0)
  {
    match IndexOf(gs, b.key)
    case Some(i) => gs[i := Bucket(b.key, gs[i].valor + b.valor)]
    case None => gs + [b]
  }

  /** The keyed record built by walking the list once. */
  function GroupBy(bs: seq<Bucket>): (r: seq<Bucket>)
    ensures DistinctKeys(r)
    ensures Total(r) == Total(bs)
    ensures Totals(r, bs)
    ensures SameKeys(r, bs)
    ensures FirstSeenOrder(r, bs)
  {
    if bs == [] then []
    else
      var prefix := bs[..|bs| - 1];
      var b := bs[|bs| - 1];
      var g := GroupBy(prefix);
      assert bs == prefix + [b];
      GroupStep(prefix, b, g);
      StepOrder(prefix, b, g);
      AddTo(g, b)
  }

  /** The record lists keys in the order the amounts first carry them. */
  predicate FirstSeenOrder(g: seq<Bucket>, bs: seq<Bucket>)
  {
    forall i, j :: 0 <= i < j < |g| ==>
      IndexOf(bs, g[i].key).Some? && IndexOf(bs, g[j].key).Some?
      && IndexOf(bs, g[i].key).value < IndexOf(bs, g[j].key).value
  }

  /** Reorders so that no bucket comes after a larger one; buckets of equal
      total keep their order. */
  function Insert(x: Bucket, s: seq<Bucket>): (r: seq<Bucket>)
    ensures multiset(r) == multiset(s) + multiset{x}
    ensures Total(r) == Total(s) + x.valor
  {
    if s == [] then [x]
    else if x.valor > s[0].valor then
      TotalCons(x, s);
      [x] + s
    else
      assert s == [s[0]] + s[1..];
      var rest := Insert(x, s[1..]);
      TotalCons(s[0], rest);
      TotalCons(s[0], s[1..]);
      [s[0]] + rest
  }

  predicate SortedDesc(s: seq<Bucket>)
  {
    forall i, j :: 0 <= i < j < |s| ==> s[i].valor >= s[j].valor
  }

  /** The buckets holding exactly the amount `v`, in their order. */
  function WithValue(s: seq<Bucket>, v: int): seq<Bucket>
  {
    if s == [] then [] else (if s[0].valor == v then [s[0]] else []) + WithValue(s[1..], v)
  }

  /** The buckets ordered by amount, largest first. The sort is stable:
      the buckets of any one amount keep their order. A list with one bucket
      per key stays so. */
  function SortDesc(s: seq<Bucket>): (r: seq<Bucket>)
    ensures SortedDesc(r)
    ensures multiset(r) == multiset(s)
    ensures Total(r) == Total(s)
    ensures forall v :: WithValue(r, v) == WithValue(s, v)
    ensures DistinctKeys(s) ==> DistinctKeys(r)
  {
    if s == [] then []
    else
      var init, last := s[..|s| - 1], s[|s| - 1];
      var sorted := SortDesc(init);
      assert s == init + [last];
      InsertKeepsSorted(last, sorted);
      SortStepKeepsOrder(init, last, sorted);
      if DistinctKeys(s) then
        SortStepDistinct(init, last, sorted);
        Insert(last, sorted)
      else
        Insert(last, sorted)
  }

  /** One insertion of the sort keeps each amount's buckets in input order. */
  lemma SortStepKeepsOrder(init: seq<Bucket>, last: Bucket, sorted: seq<Bucket>)
    requires SortedDesc(sorted)
    requires forall v :: WithValue(sorted, v) == WithValue(init, v)
    ensures forall v :: WithValue(Insert(last, sorted), v) == WithValue(init + [last], v)
  {
    forall v
      ensures WithValue(Insert(last, sorted), v) == WithValue(init + [last], v)
    {
      InsertWithValue(last, sorted, v);
      WithValueAppend(init, [last], v);
      assert [last][1..] == [];
    }
  }

  /** One insertion of the sort keeps the keys distinct. */
  lemma SortStepDistinct(init: seq<Bucket>, last: Bucket, sorted: seq<Bucket>)
    requires DistinctKeys(init + [last]) && DistinctKeys(sorted)
    requires multiset(sorted) == multiset(init)
    ensures DistinctKeys(Insert(last, sorted))
  {
    var s := init + [last];
    forall y | y in sorted
      ensures y.key != last.key
    {
      assert y in multiset(init);
      var k :| 0 <= k < |init| && init[k] == y;
      assert s[k] == y && s[|init|] == last;
    }
    InsertDistinct(last, sorted);
  }

  /** The report: one bucket per key with its total, largest first; keys of
      equal total keep the order in which the walk first met them. */
  function Report(bs: seq<Bucket>): (r: seq<Bucket>)
    ensures SortedDesc(r)
    ensures DistinctKeys(r)
    ensures Total(r) == Total(bs)
    ensures forall x :: x in r ==> x.valor == KeyTotal(bs, x.key)
    ensures forall k :: HasKey(r, k) <==> HasKey(bs, k)
    ensures forall v :: WithValue(r, v) == WithValue(GroupBy(bs), v)
  {
    var g := GroupBy(bs);
    var r := SortDesc(g);
    PermutationKeeps(g, r);
    r
  }

  /** A reordering holds the same buckets and names the same keys. */
  lemma PermutationKeeps(g: seq<Bucket>, r: seq<Bucket>)
    requires multiset(r) == multiset(g)
    ensures forall x :: x in r ==> x in g
    ensures forall k :: HasKey(r, k) <==> HasKey(g, k)
  {
    forall x | x in r
      ensures x in g
    {
      assert x in multiset(r);
    }
    forall k | HasKey(r, k)
      ensures HasKey(g, k)
    {
      var i :| 0 <= i < |r| && r[i].key == k;
      assert r[i] in multiset(g);
      var j :| 0 <= j < |g| && g[j] == r[i];
    }
    forall k | HasKey(g, k)
      ensures HasKey(r, k)
    {
      var i :| 0 <= i < |g| && g[i].key == k;
      assert g[i] in multiset(r);
      var j :| 0 <= j < |r| && r[j] == g[i];
    }
  }

  // ---------------------------------------------------------------- lemmas

  lemma {:induction false} TotalCons(x: Bucket, s: seq<Bucket>)
    ensures Total([x] + s) == x.valor + Total(s)
    decreases |s|
  {
    if s != [] {
      assert ([x] + s)[..|[x] + s| - 1] == [x] + s[..|s| - 1];
      TotalCons(x, s[..|s| - 1]);
    }
  }

  lemma {:induction false} TotalUpdate(s: seq<Bucket>, i: nat, x: Bucket)
    requires i < |s|
    ensures Total(s[i := x]) == Total(s) - s[i].valor + x.valor
    decreases |s|
  {
    var n := |s| - 1;
    if i < n {
      assert s[i := x][..n] == s[..n][i := x];
      TotalUpdate(s[..n], i, x);
    } else {
      assert s[i := x][..n] == s[..n];
    }
  }

  lemma {:induction false} KeyTotalAbsent(bs: seq<Bucket>, key: string)
    requires !HasKey(bs, key)
    ensures KeyTotal(bs, key) == 0
    decreases |bs|
  {
    if bs != [] {
      assert forall i :: 0 <= i < |bs| - 1 ==> bs[..|bs| - 1][i] == bs[i];
      KeyTotalAbsent(bs[..|bs| - 1], key);
    }
  }

  /** The two lists name the same keys. */
  ghost predicate SameKeys(a: seq<Bucket>, b: seq<Bucket>)
  {
    forall k :: HasKey(a, k) <==> HasKey(b, k)
  }

  /** Every bucket of the record holds its key's total over the amounts. */
  predicate Totals(g: seq<Bucket>, bs: seq<Bucket>)
  {
    forall i :: 0 <= i < |g| ==> g[i].valor == KeyTotal(bs, g[i].key)
  }

  /** One step of the walk keeps the record's invariants. */
  lemma GroupStep(prefix: seq<Bucket>, b: Bucket, g: seq<Bucket>)
    requires DistinctKeys(g) && Total(g) == Total(prefix)
    requires Totals(g, prefix) && SameKeys(g, prefix)
    ensures var r, bs := AddTo(g, b), prefix + [b];
            DistinctKeys(r) && Total(r) == Total(bs) && Totals(r, bs) && SameKeys(r, bs)
  {
    StepDistinct(g, b);
    StepTotal(prefix, b, g);
    match IndexOf(g, b.key)
    case Some(i) =>
      StepFoundTotals(prefix, b, g, i);
      StepFoundKeys(prefix, b, g, i);
    case None =>
      assert AddTo(g, b) == g + [b];
      StepNewTotals(prefix, b, g);
      StepNewKeys(prefix, b, g);
  }

  /** Looking a key up after appending a bucket: an earlier bucket with the
      key still wins; otherwise the appended one is found if it has the key. */
  lemma {:induction false} IndexOfSnoc(s: seq<Bucket>, x: Bucket, key: string)
    ensures IndexOf(s + [x], key)
            == if HasKey(s, key) then IndexOf(s, key) else if x.key == key then Some(|s|) else None
    decreases |s|
  {
    if s == [] {
      assert s + [x] == [x] && [x][1..] == [];
    } else {
      var t := s + [x];
      assert t[0] == s[0] && t[1..] == s[1..] + [x];
      if s[0].key != key {
        IndexOfSnoc(s[1..], x, key);
        assert HasKey(s, key) <==> HasKey(s[1..], key) by {
          if HasKey(s, key) {
            var i :| 0 <= i < |s| && s[i].key == key;
            assert s[1..][i - 1] == s[i];
          }
          if HasKey(s[1..], key) {
            var i :| 0 <= i < |s[1..]| && s[1..][i].key == key;
            assert s[i + 1] == s[1..][i];
          }
        }
      }
    }
  }

  /** One step of the walk keeps the keys in first-seen order. */
  lemma StepOrder(prefix: seq<Bucket>, b: Bucket, g: seq<Bucket>)
    requires SameKeys(g, prefix) && FirstSeenOrder(g, prefix)
    ensures FirstSeenOrder(AddTo(g, b), prefix + [b])
  {
    var r, bs := AddTo(g, b), prefix + [b];
    forall k | HasKey(g, k)
      ensures IndexOf(bs, k) == IndexOf(prefix, k) && IndexOf(prefix, k).Some?
    {
      IndexOfSnoc(prefix, b, k);
    }
    forall i, j | 0 <= i < j < |r|
      ensures IndexOf(bs, r[i].key).Some? && IndexOf(bs, r[j].key).Some?
              && IndexOf(bs, r[i].key).value < IndexOf(bs, r[j].key).value
    {
      assert r[i].key == g[i].key && HasKey(g, g[i].key);
      if j < |g| {
        assert r[j].key == g[j].key && HasKey(g, g[j].key);
      } else {
        assert !HasKey(g, b.key) && r[j] == b;
        IndexOfSnoc(prefix, b, b.key);
      }
    }
  }

  lemma StepDistinct(g: seq<Bucket>, b: Bucket)
    requires DistinctKeys(g)
    ensures DistinctKeys(AddTo(g, b))
  {
    match IndexOf(g, b.key)
    case Some(i) =>
    case None =>
      assert !HasKey(g, b.key);
      var r := g + [b];
      assert AddTo(g, b) == r;
      forall i, j | 0 <= i < j < |r|
        ensures r[i].key != r[j].key
      {
        if j == |g| {
          assert r[i] == g[i];
        }
      }
  }

  lemma StepTotal(prefix: seq<Bucket>, b: Bucket, g: seq<Bucket>)
    requires Total(g) == Total(prefix)
    ensures Total(AddTo(g, b)) == Total(prefix + [b])
  {
    TotalSnoc(prefix, b);
    match IndexOf(g, b.key)
    case Some(i) =>
      assert AddTo(g, b) == g[i := Bucket(b.key, g[i].valor + b.valor)];
      TotalUpdate(g, i, Bucket(b.key, g[i].valor + b.valor));
    case None =>
      assert AddTo(g, b) == g + [b];
      TotalSnoc(g, b);
  }

  lemma TotalSnoc(s: seq<Bucket>, x: Bucket)
    ensures Total(s + [x]) == Total(s) + x.valor
  {
    assert (s + [x])[..|s|] == s;
  }

  lemma StepFoundTotals(prefix: seq<Bucket>, b: Bucket, g: seq<Bucket>, i: nat)
    requires DistinctKeys(g) && Totals(g, prefix)
    requires IndexOf(g, b.key) == Some(i)
    ensures Totals(AddTo(g, b), prefix + [b])
  {
    var r, bs := AddTo(g, b), prefix + [b];
    assert bs[..|bs| - 1] == prefix && bs[|bs| - 1] == b;
    forall j | 0 <= j < |r|
      ensures r[j].valor == KeyTotal(bs, r[j].key)
    {
      if j != i {
        assert g[j].key != g[i].key;
      }
    }
  }

  lemma StepFoundKeys(prefix: seq<Bucket>, b: Bucket, g: seq<Bucket>, i: nat)
    requires SameKeys(g, prefix)
    requires IndexOf(g, b.key) == Some(i)
    ensures SameKeys(AddTo(g, b), prefix + [b])
  {
    var r, bs := AddTo(g, b), prefix + [b];
    forall k | HasKey(bs, k)
      ensures HasKey(r, k)
    {
      if k != b.key {
        var j :| 0 <= j < |bs| && bs[j].key == k;
        assert prefix[j].key == k;
        assert HasKey(g, k);
        var m :| 0 <= m < |g| && g[m].key == k;
        assert r[m].key == k;
      } else {
        assert r[i].key == k;
      }
    }
    forall k | HasKey(r, k)
      ensures HasKey(bs, k)
    {
      var j :| 0 <= j < |r| && r[j].key == k;
      assert g[j].key == k;
      assert HasKey(g, k);
      var m :| 0 <= m < |prefix| && prefix[m].key == k;
      assert bs[m].key == k;
    }
  }

  lemma StepNewTotals(prefix: seq<Bucket>, b: Bucket, g: seq<Bucket>)
    requires Totals(g, prefix) && SameKeys(g, prefix)
    requires IndexOf(g, b.key).None?
    ensures Totals(g + [b], prefix + [b])
  {
    var r, bs := g + [b], prefix + [b];
    assert bs[..|bs| - 1] == prefix && bs[|bs| - 1] == b;
    assert !HasKey(prefix, b.key);
    KeyTotalAbsent(prefix, b.key);
    forall j | 0 <= j < |r|
      ensures r[j].valor == KeyTotal(bs, r[j].key)
    {
      if j < |g| {
        assert g[j].key != b.key;
      }
    }
  }

  lemma StepNewKeys(prefix: seq<Bucket>, b: Bucket, g: seq<Bucket>)
    requires SameKeys(g, prefix)
    ensures SameKeys(g + [b], prefix + [b])
  {
    var r, bs := g + [b], prefix + [b];
    forall k | HasKey(bs, k)
      ensures HasKey(r, k)
    {
      var j :| 0 <= j < |bs| && bs[j].key == k;
      if j < |prefix| {
        assert prefix[j].key == k;
        assert HasKey(g, k);
        var m :| 0 <= m < |g| && g[m].key == k;
        assert r[m].key == k;
      } else {
        assert r[|g|].key == k;
      }
    }
    forall k | HasKey(r, k)
      ensures HasKey(bs, k)
    {
      var j :| 0 <= j < |r| && r[j].key == k;
      if j < |g| {
        assert g[j].key == k;
        assert HasKey(g, k);
        var m :| 0 <= m < |prefix| && prefix[m].key == k;
        assert bs[m].key == k;
      } else {
        assert bs[|prefix|].key == k;
      }
    }
  }

  lemma {:induction false} InsertKeepsSorted(x: Bucket, s: seq<Bucket>)
    requires SortedDesc(s)
    ensures SortedDesc(Insert(x, s))
    decreases |s|
  {
    if s == [] {
      assert Insert(x, s) == [x];
    } else if x.valor > s[0].valor {
      assert Insert(x, s) == [x] + s;
      assert forall j :: 0 <= j < |s| ==> s[0].valor >= s[j].valor;
      SortedCons(x, s);
    } else {
      var rest := Insert(x, s[1..]);
      SortedTail(s);
      InsertKeepsSorted(x, s[1..]);
      InsertBelowHead(x, s);
      assert Insert(x, s) == [s[0]] + rest;
      SortedCons(s[0], rest);
    }
  }

  lemma SortedTail(s: seq<Bucket>)
    requires SortedDesc(s) && s != []
    ensures SortedDesc(s[1..])
  {
    forall i, j | 0 <= i < j < |s[1..]|
      ensures s[1..][i].valor >= s[1..][j].valor
    {
      assert s[1..][i] == s[i + 1] && s[1..][j] == s[j + 1];
    }
  }

  /** A bucket no smaller than every bucket of a sorted list can go first. */
  lemma SortedCons(h: Bucket, t: seq<Bucket>)
    requires SortedDesc(t)
    requires forall j :: 0 <= j < |t| ==> h.valor >= t[j].valor
    ensures SortedDesc([h] + t)
  {
    var r := [h] + t;
    forall i, j | 0 <= i < j < |r|
      ensures r[i].valor >= r[j].valor
    {
      if i == 0 {
        assert r[j] == t[j - 1];
      } else {
        assert r[i] == t[i - 1] && r[j] == t[j - 1];
      }
    }
  }

  /** Inserting an amount no larger than a sorted list's head into its tail
      yields nothing above that head. */
  lemma InsertBelowHead(x: Bucket, s: seq<Bucket>)
    requires SortedDesc(s) && s != [] && x.valor <= s[0].valor
    ensures forall j :: 0 <= j < |Insert(x, s[1..])| ==> s[0].valor >= Insert(x, s[1..])[j].valor
  {
    var rest := Insert(x, s[1..]);
    forall j | 0 <= j < |rest|
      ensures s[0].valor >= rest[j].valor
    {
      assert rest[j] in multiset(rest);
      if rest[j] != x {
        assert rest[j] in multiset(s[1..]);
        var k :| 0 <= k < |s[1..]| && s[1..][k] == rest[j];
        assert s[k + 1] == rest[j];
      }
    }
  }

  lemma {:induction false} WithValueAppend(a: seq<Bucket>, b: seq<Bucket>, v: int)
    ensures WithValue(a + b, v) == WithValue(a, v) + WithValue(b, v)
    decreases |a|
  {
    if a == [] {
      assert a + b == b;
    } else {
      assert (a + b)[0] == a[0] && (a + b)[1..] == a[1..] + b;
      var head := if a[0].valor == v then [a[0]] else [];
      assert WithValue(a + b, v) == head + WithValue(a[1..] + b, v);
      WithValueAppend(a[1..], b, v);
      assert WithValue(a, v) == head + WithValue(a[1..], v);
    }
  }

  /** No bucket of a list below `v` holds `v`. */
  lemma {:induction false} WithValueBelow(s: seq<Bucket>, v: int)
    requires forall j :: 0 <= j < |s| ==> s[j].valor < v
    ensures WithValue(s, v) == []
    decreases |s|
  {
    if s != [] {
      assert forall j :: 0 <= j < |s[1..]| ==> s[1..][j] == s[j + 1];
      WithValueBelow(s[1..], v);
    }
  }

  /** Inserting into a largest-first list puts the new bucket after every
      bucket of its own amount. */
  lemma {:induction false} InsertWithValue(x: Bucket, s: seq<Bucket>, v: int)
    requires SortedDesc(s)
    ensures WithValue(Insert(x, s), v) == WithValue(s, v) + (if x.valor == v then [x] else [])
    decreases |s|
  {
    if s == [] {
      assert Insert(x, s) == [x];
      assert [x][1..] == [];
    } else if x.valor > s[0].valor {
      InsertFrontWithValue(x, s, v);
    } else {
      SortedTail(s);
      InsertWithValue(x, s[1..], v);
      InsertPastHeadWithValue(x, s, v);
    }
  }

  /** A bucket larger than a sorted list's head goes first; nothing in the
      list shares its amount. */
  lemma InsertFrontWithValue(x: Bucket, s: seq<Bucket>, v: int)
    requires SortedDesc(s) && s != [] && x.valor > s[0].valor
    ensures WithValue(Insert(x, s), v) == WithValue(s, v) + (if x.valor == v then [x] else [])
  {
    var r := [x] + s;
    assert Insert(x, s) == r && r[0] == x && r[1..] == s;
    if x.valor == v {
      assert forall j :: 0 <= j < |s| ==> s[0].valor >= s[j].valor;
      WithValueBelow(s, v);
    }
  }

  /** A bucket no larger than a list's head goes into its tail. */
  lemma InsertPastHeadWithValue(x: Bucket, s: seq<Bucket>, v: int)
    requires s != [] && x.valor <= s[0].valor
    requires WithValue(Insert(x, s[1..]), v) == WithValue(s[1..], v) + (if x.valor == v then [x] else [])
    ensures WithValue(Insert(x, s), v) == WithValue(s, v) + (if x.valor == v then [x] else [])
  {
    var rest := Insert(x, s[1..]);
    InsertPastHead(x, s);
    assert s == [s[0]] + s[1..];
    ConsWithValue(s[0], rest, s[1..], if x.valor == v then [x] else [], v);
  }

  lemma InsertPastHead(x: Bucket, s: seq<Bucket>)
    requires s != [] && x.valor <= s[0].valor
    ensures Insert(x, s) == [s[0]] + Insert(x, s[1..])
  {
  }

  /** Putting the same bucket in front of two lists keeps a relation between
      their buckets of one amount. */
  lemma ConsWithValue(h: Bucket, a: seq<Bucket>, b: seq<Bucket>, xs: seq<Bucket>, v: int)
    requires WithValue(a, v) == WithValue(b, v) + xs
    ensures WithValue([h] + a, v) == WithValue([h] + b, v) + xs
  {
    WithValueCons(h, a, v);
    WithValueCons(h, b, v);
  }

  lemma WithValueCons(h: Bucket, t: seq<Bucket>, v: int)
    ensures WithValue([h] + t, v) == (if h.valor == v then [h] else []) + WithValue(t, v)
  {
    assert ([h] + t)[0] == h && ([h] + t)[1..] == t;
  }

  /** A bucket whose key the list does not hold can go first without
      repeating a key. */
  lemma DistinctCons(h: Bucket, t: seq<Bucket>)
    requires DistinctKeys(t)
    requires forall y :: y in t ==> y.key != h.key
    ensures DistinctKeys([h] + t)
  {
    var r := [h] + t;
    forall i, j | 0 <= i < j < |r|
      ensures r[i].key != r[j].key
    {
      assert r[j] == t[j - 1];
      if i > 0 {
        assert r[i] == t[i - 1];
      } else {
        assert t[j - 1] in t;
      }
    }
  }

  /** Inserting a bucket with a new key keeps the keys distinct. */
  lemma {:induction false} InsertDistinct(x: Bucket, s: seq<Bucket>)
    requires DistinctKeys(s)
    requires forall y :: y in s ==> y.key != x.key
    ensures DistinctKeys(Insert(x, s))
    decreases |s|
  {
    if s == [] {
      assert Insert(x, s) == [x];
    } else if x.valor > s[0].valor {
      assert Insert(x, s) == [x] + s;
      DistinctCons(x, s);
    } else {
      var t := s[1..];
      assert DistinctKeys(t) by {
        forall i, j | 0 <= i < j < |t|
          ensures t[i].key != t[j].key
        {
          assert t[i] == s[i + 1] && t[j] == s[j + 1];
        }
      }
      forall y | y in t
        ensures y.key != x.key
      {
        assert y in s;
      }
      InsertDistinct(x, t);
      var rest := Insert(x, t);
      forall y | y in rest
        ensures y.key != s[0].key
      {
        assert y in multiset(rest);
        if y != x {
          assert y in multiset(t);
          var k :| 0 <= k < |t| && t[k] == y;
          assert s[k + 1] == y;
        } else {
          assert s[0] in s;
        }
      }
      DistinctCons(s[0], rest);
      assert Insert(x, s) == [s[0]] + rest;
    }
  }

  /** A report's totals add up to the amounts it was built from, and every
      key's share is the sum of that key's amounts. */
  lemma ReportAddsUp(bs: seq<Bucket>, key: string)
    requires HasKey(bs, key)
    ensures Total(Report(bs)) == Total(bs)
    ensures exists x :: x in Report(bs) && x.key == key && x.valor == KeyTotal(bs, key)
  {
    var r := Report(bs);
    var i :| 0 <= i < |r| && r[i].key == key;
    assert r[i] in r;
  }
}
