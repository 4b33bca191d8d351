/**
 * The dashboard charts: sales value by developer, by agent and by month, the chart the
 * selected view shows and the views a user may pick.
 */
module Dashboard {
  import opened Wrappers
  import opened Types
  import opened Stats
  import opened Grouping
  import opened MonthOrder

  datatype ChartView = ViewConstrutora | ViewMes | ViewCorretor

  /** A series listing each key once, in order of first appearance, with its summed value. */
  predicate IsFirstAppearanceSeries(es: seq<Entry>, sales: seq<Sale>, g: GroupKey)
  {
    && Names(es) == DistinctKeys(sales, g)
    && forall i :: 0 <= i < |es| ==> es[i].vendas == SumFor(sales, g, es[i].name)
  }

  /** A series listing each month once, ascending by month, with its summed value. */
  predicate IsMonthSeries(es: seq<Entry>, sales: seq<Sale>)
  {
    && SortedByMonth(es)
    && DistinctNames(es)
    && NameSet(es) == KeySet(sales, ByMonth)
    && forall i :: 0 <= i < |es| ==> es[i].vendas == SumFor(sales, ByMonth, es[i].name)
  }

  lemma TakeOneMore(sales: seq<Sale>, i: nat)
    requires i < |sales|
    ensures sales[..i + 1] == sales[..i] + [sales[i]]
  {
  }

  lemma TakeAll(sales: seq<Sale>)
    ensures sales[..|sales|] == sales
  {
  }

  /** One more sale's key is appended to the distinct keys exactly when it is new. */
  lemma DistinctKeysAppend(p: seq<Sale>, x: Sale, g: GroupKey)
    ensures DistinctKeys(p + [x], g)
            == if KeyOf(g, x) in DistinctKeys(p, g) then DistinctKeys(p, g) else DistinctKeys(p, g) + [KeyOf(g, x)]
  {
    assert (p + [x])[..|p|] == p;
  }

  /** One more sale moves the per-key sum of its own key only. */
  lemma SumForAppendOne(p: seq<Sale>, x: Sale, g: GroupKey, k: string)
    ensures SumFor(p + [x], g, k) == SumFor(p, g, k) + (if KeyOf(g, x) == k then x.valorTotalVenda else 0.0)
  {
    assert (p + [x])[..|p|] == p;
  }

  /** Adding a sale to the entry that already holds its key keeps the series exact. */
  lemma AddToFoundKeepsSeries(p: seq<Sale>, x: Sale, g: GroupKey, es: seq<Entry>, j: nat)
    requires j < |es|
    requires IsFirstAppearanceSeries(es, p, g)
    requires es[j].name == KeyOf(g, x)
    ensures IsFirstAppearanceSeries(es[j := Entry(es[j].name, es[j].vendas + x.valorTotalVenda)], p + [x], g)
  {
    var key := KeyOf(g, x);
    var next := es[j := Entry(es[j].name, es[j].vendas + x.valorTotalVenda)];
    assert key in DistinctKeys(p, g) by {
      assert Names(es)[j] == key;
    }
    DistinctKeysAppend(p, x, g);
    assert NoDup(Names(es));
    assert Names(next) == Names(es) by {
      assert forall m :: 0 <= m < |next| ==> Names(next)[m] == Names(es)[m];
    }
    forall m | 0 <= m < |next| ensures next[m].vendas == SumFor(p + [x], g, next[m].name) {
      SumForAppendOne(p, x, g, next[m].name);
      if m != j {
        assert es[m].name != key by {
          assert Names(es)[m] != Names(es)[j];
        }
        assert next[m] == es[m];
      }
    }
  }

  /** Pushing a new entry for a key not yet seen keeps the series exact. */
  lemma PushNewKeepsSeries(p: seq<Sale>, x: Sale, g: GroupKey, es: seq<Entry>)
    requires IsFirstAppearanceSeries(es, p, g)
    requires forall m :: 0 <= m < |es| ==> es[m].name != KeyOf(g, x)
    ensures IsFirstAppearanceSeries(es + [Entry(KeyOf(g, x), x.valorTotalVenda)], p + [x], g)
  {
    var key := KeyOf(g, x);
    var next := es + [Entry(key, x.valorTotalVenda)];
    DistinctKeysAppend(p, x, g);
    assert key !in Names(es);
    assert Names(next) == Names(es) + [key];
    SumForAbsent(p, g, key);
    forall m | 0 <= m < |next| ensures next[m].vendas == SumFor(p + [x], g, next[m].name) {
      SumForAppendOne(p, x, g, next[m].name);
    }
  }

  /** `acc.find(item => item.name === key)`: the first entry with that name, or `|es|` when none has it. */
  method FindByName(es: seq<Entry>, key: string) returns (j: nat)
    ensures j <= |es|
    ensures forall m :: 0 <= m < j ==> es[m].name != key
    ensures j < |es| ==> es[j].name == key
  {
    j := 0;
    while j < |es| && es[j].name != key
      invariant 0 <= j <= |es|
      invariant forall m :: 0 <= m < j ==> es[m].name != key
    {
      j := j + 1;
    }
  }

  /**
   * The reducer of `chartDataByConstrutora` and `chartDataByCorretor`: find the entry with the
   * sale's key and add the sale's value to it, or push a new entry. Applied to the series of
   * the sales before it (`seen`), it yields the series of those sales and this one.
   */
  method AddSale(es: seq<Entry>, sale: Sale, g: GroupKey, ghost seen: seq<Sale>) returns (r: seq<Entry>)
    requires IsFirstAppearanceSeries(es, seen, g)
    ensures IsFirstAppearanceSeries(r, seen + [sale], g)
  {
    var key := KeyOf(g, sale);
    var j := FindByName(es, key);
    if j < |es| {
      AddToFoundKeepsSeries(seen, sale, g, es, j);
      r := es[j := Entry(es[j].name, es[j].vendas + sale.valorTotalVenda)];
    } else {
      PushNewKeepsSeries(seen, sale, g, es);
      r := es + [Entry(key, sale.valorTotalVenda)];
    }
  }

  /**
   * The reduce behind `chartDataByConstrutora` and `chartDataByCorretor`, from an empty list.
   * The bars add up to the total sale value and there are never more bars than sales.
   */
  method GroupBy(sales: seq<Sale>, g: GroupKey) returns (es: seq<Entry>)
    ensures IsFirstAppearanceSeries(es, sales, g)
    ensures |es| <= |sales|
    ensures SumVendas(es) == TotalValue(sales)
  {
    es := [];
    var i := 0;
    while i < |sales|
      invariant 0 <= i <= |sales|
      invariant IsFirstAppearanceSeries(es, sales[..i], g)
    {
      es := AddSale(es, sales[i], g, sales[..i]);
      TakeOneMore(sales, i);
      i := i + 1;
    }
    TakeAll(sales);
    SeriesSum(es, sales, g);
  }

  /** A first-appearance series has no more bars than sales and adds up to the total. */
  lemma SeriesSum(es: seq<Entry>, sales: seq<Sale>, g: GroupKey)
    requires IsFirstAppearanceSeries(es, sales, g)
    ensures |es| <= |sales|
    ensures SumVendas(es) == TotalValue(sales)
  {
    PartitionSum(es, sales, g);
  }

  /** `chartDataByConstrutora`: the developer series. */
  method ChartDataByConstrutora(sales: seq<Sale>) returns (es: seq<Entry>)
    ensures IsFirstAppearanceSeries(es, sales, ByConstrutora)
    ensures |es| <= |sales| && SumVendas(es) == TotalValue(sales)
  {
    es := GroupBy(sales, ByConstrutora);
  }

  /** `chartDataByCorretor`: the agent series. */
  method ChartDataByCorretor(sales: seq<Sale>) returns (es: seq<Entry>)
    ensures IsFirstAppearanceSeries(es, sales, ByCorretor)
    ensures |es| <= |sales| && SumVendas(es) == TotalValue(sales)
  {
    es := GroupBy(sales, ByCorretor);
  }

  /** The month buckets after some sales: opened in first-appearance order, each holding its month's sum. */
  ghost predicate MonthBuckets(acc: map<string, real>, order: seq<string>, sales: seq<Sale>)
  {
    && order == DistinctKeys(sales, ByMonth)
    && (forall k :: k in acc <==> k in order)
    && (forall k :: k in acc ==> acc[k] == SumFor(sales, ByMonth, k))
  }

  /** Opening a missing bucket at zero and then adding `v` is adding `v` to what was there, or to zero. */
  lemma OpenThenAdd(acc: map<string, real>, mid: map<string, real>, month: string, v: real)
    requires mid == if month in acc then acc else acc[month := 0.0]
    ensures mid[month := mid[month] + v] == acc[month := (if month in acc then acc[month] else 0.0) + v]
  {
    if month !in acc {
      assert mid[month := mid[month] + v] == acc[month := 0.0 + v];
    }
  }

  /** Adding a sale to its month's bucket, opened at zero when missing, keeps the buckets exact. */
  lemma BucketStep(p: seq<Sale>, x: Sale, acc: map<string, real>, order: seq<string>,
                   acc': map<string, real>, order': seq<string>)
    requires MonthBuckets(acc, order, p)
    requires var month := MonthKey(x.dataVenda);
             && acc' == acc[month := (if month in acc then acc[month] else 0.0) + x.valorTotalVenda]
             && order' == if month in acc then order else order + [month]
    ensures MonthBuckets(acc', order', p + [x])
  {
    var month := MonthKey(x.dataVenda);
    DistinctKeysAppend(p, x, ByMonth);
    if month !in acc {
      SumForAbsent(p, ByMonth, month);
    }
    forall k | k in acc' ensures acc'[k] == SumFor(p + [x], ByMonth, k) {
      SumForAppendOne(p, x, ByMonth, k);
    }
  }

  /** Buckets read back and sorted by month form the month series. */
  lemma SortedBucketsAreMonthSeries(acc: map<string, real>, order: seq<string>, sales: seq<Sale>,
                                     values: seq<Entry>, es: seq<Entry>)
    requires MonthBuckets(acc, order, sales)
    requires |values| == |order|
    requires forall j :: 0 <= j < |order| ==> values[j] == Entry(order[j], acc[order[j]])
    requires SortedByMonth(es) && multiset(es) == multiset(values)
    ensures IsMonthSeries(es, sales)
    ensures |es| <= |sales|
    ensures SumVendas(es) == TotalValue(sales)
  {
    BucketValuesNames(acc, order, sales, values);
    NameSetOfPermutation(values, es);
    DistinctNamesOfPermutation(values, es);
    forall m | 0 <= m < |es| ensures es[m].vendas == SumFor(sales, ByMonth, es[m].name) {
      assert es[m] in multiset(values);
    }
    assert |es| == |multiset(es)| == |multiset(values)| == |values|;
    SeriesCovers(es, sales);
    PartitionSum(es, sales, ByMonth);
  }

  /** The buckets read back name each month of the sales once. */
  lemma BucketValuesNames(acc: map<string, real>, order: seq<string>, sales: seq<Sale>, values: seq<Entry>)
    requires MonthBuckets(acc, order, sales)
    requires |values| == |order|
    requires forall j :: 0 <= j < |order| ==> values[j] == Entry(order[j], acc[order[j]])
    ensures DistinctNames(values)
    ensures NameSet(values) == KeySet(sales, ByMonth)
    ensures forall j :: 0 <= j < |values| ==> values[j].vendas == SumFor(sales, ByMonth, values[j].name)
  {
    assert Names(values) == order;
    assert DistinctNames(values) by {
      forall a, b | 0 <= a < b < |values| ensures values[a].name != values[b].name {
        assert Names(values)[a] != Names(values)[b];
      }
    }
    DistinctKeysAreKeySet(sales, ByMonth);
    forall k ensures k in NameSet(values) <==> k in order {
      if k in order {
        var j :| 0 <= j < |order| && order[j] == k;
        assert values[j] in values;
      }
    }
  }

  /** A series naming each month once with its sum accounts for the sales. */
  lemma SeriesCovers(es: seq<Entry>, sales: seq<Sale>)
    requires DistinctNames(es)
    requires NameSet(es) == KeySet(sales, ByMonth)
    requires forall m :: 0 <= m < |es| ==> es[m].vendas == SumFor(sales, ByMonth, es[m].name)
    ensures Covers(es, sales, ByMonth)
  {
    NamesAreNameSet(es);
    forall m | 0 <= m < |sales| ensures KeyOf(ByMonth, sales[m]) in Names(es) {
      assert sales[m] in sales;
      assert KeyOf(ByMonth, sales[m]) in NameSet(es);
    }
    forall a, b | 0 <= a < b < |es| ensures Names(es)[a] != Names(es)[b] {
      assert es[a].name != es[b].name;
    }
  }

  /** `if (!acc[month]) acc[month] = {...}`: a missing month's bucket is opened at zero, after the others. */
  method OpenBucket(acc: map<string, real>, order: seq<string>, month: string)
    returns (acc': map<string, real>, order': seq<string>)
    ensures acc' == if month !in acc then acc[month := 0.0] else acc
    ensures order' == if month !in acc then order + [month] else order
  {
    acc', order' := acc, order;
    if month !in acc {
      acc' := acc[month := 0.0];
      order' := order + [month];
    }
  }

  /**
   * The reduce inside `chartDataByMes`: each sale's value is added to its month's bucket in a
   * dictionary, the bucket being opened at zero on first sight. `order` is the order in which
   * the buckets were opened, the order `Object.values` reads them back in.
   */
  method AccumulateByMonth(sales: seq<Sale>) returns (acc: map<string, real>, order: seq<string>)
    ensures MonthBuckets(acc, order, sales)
  {
    acc, order := map[], [];
    var i := 0;
    while i < |sales|
      invariant 0 <= i <= |sales|
      invariant MonthBuckets(acc, order, sales[..i])
    {
      var month := MonthKey(sales[i].dataVenda);
      ghost var acc0, order0 := acc, order;
      acc, order := OpenBucket(acc, order, month);
      ghost var mid := acc;
      acc := acc[month := acc[month] + sales[i].valorTotalVenda];
      OpenThenAdd(acc0, mid, month, sales[i].valorTotalVenda);
      BucketStep(sales[..i], sales[i], acc0, order0, acc, order);
      TakeOneMore(sales, i);
      i := i + 1;
    }
    TakeAll(sales);
  }

  /** `Object.values`: the buckets' entries in the order they were opened. */
  function BucketValues(acc: map<string, real>, order: seq<string>): (values: seq<Entry>)
    requires forall k :: k in order ==> k in acc
    ensures |values| == |order|
    ensures forall j :: 0 <= j < |order| ==> values[j] == Entry(order[j], acc[order[j]])
  {
    seq(|order|, j requires 0 <= j < |order| => Entry(order[j], acc[order[j]]))
  }

  /**
   * `chartDataByMes`: the month buckets read back and sorted ascending by month. The result
   * lists every month once, in order, with its sum, and adds up to the total sale value.
   */
  method ChartDataByMes(sales: seq<Sale>) returns (es: seq<Entry>)
    ensures IsMonthSeries(es, sales)
    ensures |es| <= |sales|
    ensures SumVendas(es) == TotalValue(sales)
  {
    var acc, order := AccumulateByMonth(sales);
    var values := BucketValues(acc, order);
    es := SortByMonth(values);
    SortedBucketsAreMonthSeries(acc, order, sales, values, es);
  }

  /**
   * `chartData`: the month series for 'mes', the agent series for 'corretor', the developer
   * series otherwise. Whichever is shown, its bars add up to the total sales value.
   */
  method ChartData(view: ChartView, sales: seq<Sale>) returns (es: seq<Entry>)
    ensures view == ViewMes ==> IsMonthSeries(es, sales)
    ensures view == ViewCorretor ==> IsFirstAppearanceSeries(es, sales, ByCorretor)
    ensures view == ViewConstrutora ==> IsFirstAppearanceSeries(es, sales, ByConstrutora)
    ensures SumVendas(es) == TotalValue(sales)
  {
    var byConstrutora := ChartDataByConstrutora(sales);
    var byMes := ChartDataByMes(sales);
    var byCorretor := ChartDataByCorretor(sales);
    match view
    case ViewMes => es := byMes;
    case ViewCorretor => es := byCorretor;
    case ViewConstrutora => es := byConstrutora;
  }

  /**
   * `availableViews`: developer and month always; the per-agent view unless the user is a
   * corretor (a missing user gets it too).
   */
  method AvailableViews(user: Option<User>) returns (views: seq<ChartView>)
    ensures |views| >= 2 && views[0] == ViewConstrutora && views[1] == ViewMes
    ensures ViewCorretor in views <==> !(user.Some? && user.value.role == Corretor)
    ensures forall i, j :: 0 <= i < j < |views| ==> views[i] != views[j]
  {
    views := [ViewConstrutora, ViewMes];
    if !(user.Some? && user.value.role == Corretor) {
      views := views + [ViewCorretor];
    }
  }

  /** Permuted sales carry the same months. */
  lemma SameSalesSameMonths(s1: seq<Sale>, s2: seq<Sale>)
    requires multiset(s1) == multiset(s2)
    ensures KeySet(s1, ByMonth) == KeySet(s2, ByMonth)
  {
    forall s ensures s in s1 <==> s in s2 {
      assert s in s1 <==> s in multiset(s1);
      assert s in s2 <==> s in multiset(s2);
    }
  }

  /** The bars of a month series over ISO-dated sales are all well-formed months. */
  lemma SeriesMonthsWellFormed(es: seq<Entry>, sales: seq<Sale>)
    requires NameSet(es) == KeySet(sales, ByMonth)
    requires forall i :: 0 <= i < |sales| ==> WellFormedMonth(MonthKey(sales[i].dataVenda))
    ensures forall i :: 0 <= i < |es| ==> WellFormedMonth(es[i].name)
  {
    forall i | 0 <= i < |es| ensures WellFormedMonth(es[i].name) {
      assert es[i].name in NameSet(es);
      var s :| s in sales && KeyOf(ByMonth, s) == es[i].name;
      var n :| 0 <= n < |sales| && sales[n] == s;
    }
  }

  lemma NamesAreNameSet(es: seq<Entry>)
    ensures forall k :: k in Names(es) <==> k in NameSet(es)
  {
    forall k ensures k in Names(es) <==> k in NameSet(es) {
      if k in NameSet(es) {
        var e :| e in es && e.name == k;
        var i :| 0 <= i < |es| && es[i] == e;
        assert Names(es)[i] == k;
      }
    }
  }

  /**
   * The month series does not depend on the order of the sales: for sales dated with ISO
   * dates, any two month series of the same sales in any order are equal.
   */
  lemma MonthSeriesIndependentOfOrder(e1: seq<Entry>, s1: seq<Sale>, e2: seq<Entry>, s2: seq<Sale>)
    requires IsMonthSeries(e1, s1) && IsMonthSeries(e2, s2)
    requires multiset(s1) == multiset(s2)
    requires forall i :: 0 <= i < |s1| ==> WellFormedMonth(MonthKey(s1[i].dataVenda))
    ensures e1 == e2
  {
    SameSalesSameMonths(s1, s2);
    SeriesMonthsWellFormed(e1, s1);
    SeriesMonthsWellFormed(e2, s1);
    StrictlyAscending(e1);
    StrictlyAscending(e2);
    NamesAreNameSet(e1);
    NamesAreNameSet(e2);
    AscendingKeysUnique(Names(e1), Names(e2));
    forall i | 0 <= i < |e1| ensures e1[i] == e2[i] {
      assert Names(e1)[i] == Names(e2)[i];
      SumForPermutation(s1, s2, ByMonth, e1[i].name);
    }
  }
}
