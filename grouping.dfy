/**
 * Group-by sums over sales, as drawn by the dashboard charts: one entry per distinct key
 * (developer, agent or year-month) holding the summed sale values of that key.
 */
module Grouping {
  import opened Types
  import opened Stats

  /** One bar of a chart: a group name and the summed sale value. */
  datatype Entry = Entry(name: string, vendas: real)

  /** What a chart groups by. */
  datatype GroupKey = ByConstrutora | ByCorretor | ByMonth

  /** The month bucket of a sale date: its first seven characters, `YYYY-MM` for an ISO date. */
  function MonthKey(dataVenda: string): (k: string)
    ensures k <= dataVenda
    ensures |dataVenda| >= 7 ==> |k| == 7
  {
    if |dataVenda| < 7 then dataVenda else dataVenda[..7]
  }

  function KeyOf(g: GroupKey, s: Sale): string
  {
    match g
    case ByConstrutora => s.construtora
    case ByCorretor => s.corretor
    case ByMonth => MonthKey(s.dataVenda)
  }

  /** The names of a series, in order. */
  function Names(es: seq<Entry>): (ns: seq<string>)
    ensures |ns| == |es|
    ensures forall i :: 0 <= i < |es| ==> ns[i] == es[i].name
    decreases |es|
  {
    if es == [] then [] else Names(es[..|es| - 1]) + [es[|es| - 1].name]
  }

  predicate NoDup(ks: seq<string>)
  {
    forall i, j :: 0 <= i < j < |ks| ==> ks[i] != ks[j]
  }

  /** The distinct keys of the sales in order of first appearance. */
  function DistinctKeys(sales: seq<Sale>, g: GroupKey): (ks: seq<string>)
    ensures NoDup(ks) && |ks| <= |sales|
    ensures forall i :: 0 <= i < |sales| ==> KeyOf(g, sales[i]) in ks
    decreases |sales|
  {
    if sales == [] then []
    else
      var init, last := sales[..|sales| - 1], sales[|sales| - 1];
      var d := DistinctKeys(init, g);
      var k := KeyOf(g, last);
      assert forall i :: 0 <= i < |init| ==> init[i] == sales[i];
      if k in d then d else d + [k]
  }

  /** The summed value of the sales whose key is `k`. */
  function SumFor(sales: seq<Sale>, g: GroupKey, k: string): real
    decreases |sales|
  {
    if sales == [] then 0.0
    else
      var last := sales[|sales| - 1];
      SumFor(sales[..|sales| - 1], g, k) + (if KeyOf(g, last) == k then last.valorTotalVenda else 0.0)
  }

  /** The total of a series' bars. */
  function SumVendas(es: seq<Entry>): real
    decreases |es|
  {
    if es == [] then 0.0 else SumVendas(es[..|es| - 1]) + es[|es| - 1].vendas
  }

  /**
   * A series that accounts for the sales: no name twice, every key of a sale present, each
   * entry holding its key's sum.
   */
  predicate Covers(es: seq<Entry>, sales: seq<Sale>, g: GroupKey)
  {
    && NoDup(Names(es))
    && (forall i :: 0 <= i < |sales| ==> KeyOf(g, sales[i]) in Names(es))
    && (forall i :: 0 <= i < |es| ==> es[i].vendas == SumFor(sales, g, es[i].name))
  }

  /** The per-key sums of the given names, added up. */
  function SumOver(ns: seq<string>, sales: seq<Sale>, g: GroupKey): real
    decreases |ns|
  {
    if ns == [] then 0.0 else SumOver(ns[..|ns| - 1], sales, g) + SumFor(sales, g, ns[|ns| - 1])
  }

  lemma {:induction false} SumOverNoSales(ns: seq<string>, g: GroupKey)
    ensures SumOver(ns, [], g) == 0.0
    decreases |ns|
  {
    if ns != [] {
      SumOverNoSales(ns[..|ns| - 1], g);
    }
  }

  /** One more sale adds its value once, to the one name that is its key (if present). */
  lemma {:induction false} SumOverSnoc(ns: seq<string>, sales: seq<Sale>, x: Sale, g: GroupKey)
    requires NoDup(ns)
    ensures SumOver(ns, sales + [x], g)
            == SumOver(ns, sales, g) + (if KeyOf(g, x) in ns then x.valorTotalVenda else 0.0)
    decreases |ns|
  {
    if ns != [] {
      var init, n := ns[..|ns| - 1], ns[|ns| - 1];
      assert (sales + [x])[..|sales + [x]| - 1] == sales;
      assert NoDup(init);
      SumOverSnoc(init, sales, x, g);
      assert KeyOf(g, x) in ns <==> KeyOf(g, x) in init || KeyOf(g, x) == n;
      assert KeyOf(g, x) in init ==> KeyOf(g, x) != n;
    }
  }

  /** Names without repeats that include every key add up to the total sale value. */
  lemma {:induction false} SumOverIsTotal(ns: seq<string>, sales: seq<Sale>, g: GroupKey)
    requires NoDup(ns)
    requires forall i :: 0 <= i < |sales| ==> KeyOf(g, sales[i]) in ns
    ensures SumOver(ns, sales, g) == TotalValue(sales)
    decreases |sales|
  {
    if sales == [] {
      SumOverNoSales(ns, g);
    } else {
      var init, last := sales[..|sales| - 1], sales[|sales| - 1];
      assert forall i :: 0 <= i < |init| ==> init[i] == sales[i];
      SumOverIsTotal(ns, init, g);
      assert init + [last] == sales;
      SumOverSnoc(ns, init, last, g);
    }
  }

  lemma {:induction false} SumVendasIsSumOver(es: seq<Entry>, sales: seq<Sale>, g: GroupKey)
    requires forall i :: 0 <= i < |es| ==> es[i].vendas == SumFor(sales, g, es[i].name)
    ensures SumVendas(es) == SumOver(Names(es), sales, g)
    decreases |es|
  {
    if es != [] {
      var init := es[..|es| - 1];
      assert Names(es)[..|es| - 1] == Names(init);
      SumVendasIsSumOver(init, sales, g);
    }
  }

  /** The bars of a series that accounts for the sales add up to the total sale value. */
  lemma PartitionSum(es: seq<Entry>, sales: seq<Sale>, g: GroupKey)
    requires Covers(es, sales, g)
    ensures SumVendas(es) == TotalValue(sales)
  {
    SumVendasIsSumOver(es, sales, g);
    SumOverIsTotal(Names(es), sales, g);
  }

  /** The set of keys the sales carry. */
  function KeySet(sales: seq<Sale>, g: GroupKey): set<string>
  {
    set s | s in sales :: KeyOf(g, s)
  }

  /** Every distinct key is the key of some sale. */
  lemma {:induction false} DistinctKeysAreCarried(sales: seq<Sale>, g: GroupKey, k: string)
    requires k in DistinctKeys(sales, g)
    ensures exists i :: 0 <= i < |sales| && KeyOf(g, sales[i]) == k
    decreases |sales|
  {
    var init, last := sales[..|sales| - 1], sales[|sales| - 1];
    if KeyOf(g, last) != k {
      assert k in DistinctKeys(init, g);
      DistinctKeysAreCarried(init, g, k);
      var i :| 0 <= i < |init| && KeyOf(g, init[i]) == k;
      assert sales[i] == init[i];
    }
  }

  /** The distinct keys are exactly the keys the sales carry. */
  lemma DistinctKeysAreKeySet(sales: seq<Sale>, g: GroupKey)
    ensures forall k :: k in DistinctKeys(sales, g) <==> k in KeySet(sales, g)
  {
    forall k ensures k in DistinctKeys(sales, g) <==> k in KeySet(sales, g) {
      if k in KeySet(sales, g) {
        var s :| s in sales && KeyOf(g, s) == k;
        var i :| 0 <= i < |sales| && sales[i] == s;
      }
      if k in DistinctKeys(sales, g) {
        DistinctKeysAreCarried(sales, g, k);
        var i :| 0 <= i < |sales| && KeyOf(g, sales[i]) == k;
        assert sales[i] in sales;
      }
    }
  }

  /** A key no sale carries sums to zero. */
  lemma {:induction false} SumForAbsent(sales: seq<Sale>, g: GroupKey, k: string)
    requires k !in DistinctKeys(sales, g)
    ensures SumFor(sales, g, k) == 0.0
    decreases |sales|
  {
    if sales != [] {
      var init := sales[..|sales| - 1];
      assert forall i :: 0 <= i < |init| ==> init[i] == sales[i];
      assert k !in DistinctKeys(init, g);
      SumForAbsent(init, g, k);
    }
  }

  /** The per-key sum splits over a concatenation. */
  lemma {:induction false} SumForAppend(a: seq<Sale>, b: seq<Sale>, g: GroupKey, k: string)
    ensures SumFor(a + b, g, k) == SumFor(a, g, k) + SumFor(b, g, k)
    decreases |b|
  {
    if b == [] {
      assert a + b == a;
    } else {
      var init := b[..|b| - 1];
      assert (a + b)[..|a + b| - 1] == a + init;
      assert (a + b)[|a + b| - 1] == b[|b| - 1];
      SumForAppend(a, init, g, k);
    }
  }

  /** Taking the same element out of two permutations leaves permutations. */
  lemma RemoveFromPermutation(init: seq<Sale>, x: Sale, b: seq<Sale>, j: nat)
    requires j < |b| && b[j] == x
    requires multiset(init + [x]) == multiset(b)
    ensures multiset(b[..j] + b[j + 1..]) == multiset(init)
  {
    var left, right := b[..j], b[j + 1..];
    assert b == left + [x] + right;
    var m := multiset(left + right);
    assert m + multiset{x} == multiset(init) + multiset{x} by {
      calc {
        m + multiset{x};
        multiset(left) + multiset(right) + multiset{x};
        multiset(left + [x] + right);
        multiset(init + [x]);
        multiset(init) + multiset{x};
      }
    }
    assert m == (m + multiset{x}) - multiset{x};
    assert multiset(init) == (multiset(init) + multiset{x}) - multiset{x};
  }

  /** Taking one sale out of the middle takes its own contribution out of the per-key sum. */
  lemma SumForWithout(b: seq<Sale>, j: nat, g: GroupKey, k: string)
    requires j < |b|
    ensures SumFor(b, g, k) == SumFor(b[..j] + b[j + 1..], g, k) + SumFor([b[j]], g, k)
  {
    var left, right := b[..j], b[j + 1..];
    assert b == (left + [b[j]]) + right;
    SumForAppend(left + [b[j]], right, g, k);
    SumForAppend(left, [b[j]], g, k);
    SumForAppend(left, right, g, k);
  }

  /** The per-key sum does not depend on the order of the sales. */
  lemma {:induction false} SumForPermutation(a: seq<Sale>, b: seq<Sale>, g: GroupKey, k: string)
    requires multiset(a) == multiset(b)
    ensures SumFor(a, g, k) == SumFor(b, g, k)
    decreases |a|
  {
    if a == [] {
      assert |b| == |multiset(b)| == 0;
    } else {
      var init, x := a[..|a| - 1], a[|a| - 1];
      assert a == init + [x];
      assert x in multiset(b);
      var j :| 0 <= j < |b| && b[j] == x;
      RemoveFromPermutation(init, x, b, j);
      SumForPermutation(init, b[..j] + b[j + 1..], g, k);
      SumForWithout(b, j, g, k);
      SumForAppend(init, [x], g, k);
    }
  }
}
