/**
 * The four dashboard totals over the visible sales: total sales value, total seller
 * commission, commission paid and commission still pending.
 */
module Stats {
  import opened Types
  import opened Commission

  datatype DashboardStats = DashboardStats(
    totalVendas: real,
    totalComissao: real,
    comissaoPaga: real,
    comissaoPendente: real)

  /** Sum of the sale values, accumulated left to right from zero. */
  function TotalValue(sales: seq<Sale>): real
    decreases |sales|
  {
    if sales == [] then 0.0
    else TotalValue(sales[..|sales| - 1]) + sales[|sales| - 1].valorTotalVenda
  }

  /** Sum of the seller commissions. */
  function TotalCommission(sales: seq<Sale>): real
    decreases |sales|
  {
    if sales == [] then 0.0
    else TotalCommission(sales[..|sales| - 1]) + SaleCommission(sales[|sales| - 1])
  }

  /** Sum of the paid amounts. */
  function TotalPaid(sales: seq<Sale>): real
    decreases |sales|
  {
    if sales == [] then 0.0
    else TotalPaid(sales[..|sales| - 1]) + sales[|sales| - 1].valorComissaoPaga
  }

  /** Sum of what is still owed on each sale, the "Resta" figure of every table row. */
  function TotalRemaining(sales: seq<Sale>): real
    decreases |sales|
  {
    if sales == [] then 0.0
    else
      var last := sales[|sales| - 1];
      TotalRemaining(sales[..|sales| - 1]) + Remaining(SaleCommission(last), last.valorComissaoPaga)
  }

  /** `dashboardStats`: the pending figure is commission minus paid, exactly and unclamped. */
  function ComputeStats(visible: seq<Sale>): (st: DashboardStats)
    ensures st.comissaoPendente == st.totalComissao - st.comissaoPaga
    ensures visible == [] ==> st == DashboardStats(0.0, 0.0, 0.0, 0.0)
  {
    var totalVendas := TotalValue(visible);
    var totalComissao := TotalCommission(visible);
    var comissaoPaga := TotalPaid(visible);
    DashboardStats(totalVendas, totalComissao, comissaoPaga, totalComissao - comissaoPaga)
  }

  /** The sums split over a concatenation. */
  lemma {:induction false} TotalsAppend(a: seq<Sale>, b: seq<Sale>)
    ensures TotalValue(a + b) == TotalValue(a) + TotalValue(b)
    ensures TotalCommission(a + b) == TotalCommission(a) + TotalCommission(b)
    ensures TotalPaid(a + b) == TotalPaid(a) + TotalPaid(b)
    decreases |b|
  {
    if b == [] {
      assert a + b == a;
    } else {
      var init := b[..|b| - 1];
      assert (a + b)[..|a + b| - 1] == a + init;
      assert (a + b)[|a + b| - 1] == b[|b| - 1];
      TotalsAppend(a, init);
    }
  }

  /** Adding one sale at the end raises each total by that sale's own figures. */
  lemma StatsOfAppended(sales: seq<Sale>, s: Sale)
    ensures ComputeStats(sales + [s]).totalVendas == ComputeStats(sales).totalVendas + s.valorTotalVenda
    ensures ComputeStats(sales + [s]).totalComissao == ComputeStats(sales).totalComissao + SaleCommission(s)
    ensures ComputeStats(sales + [s]).comissaoPaga == ComputeStats(sales).comissaoPaga + s.valorComissaoPaga
    ensures ComputeStats(sales + [s]).comissaoPendente
            == ComputeStats(sales).comissaoPendente + Remaining(SaleCommission(s), s.valorComissaoPaga)
  {
    TotalsAppend(sales, [s]);
    assert [s][..0] == [];
  }

  /** The pending total equals the sum of the per-row amounts still to receive. */
  lemma {:induction false} PendingIsSumOfRemaining(sales: seq<Sale>)
    ensures ComputeStats(sales).comissaoPendente == TotalRemaining(sales)
    decreases |sales|
  {
    if sales != [] {
      PendingIsSumOfRemaining(sales[..|sales| - 1]);
    }
  }

  /** When no sale is overpaid, the pending total is not negative. */
  lemma {:induction false} PendingNonNegative(sales: seq<Sale>)
    requires forall i :: 0 <= i < |sales| ==> sales[i].valorComissaoPaga <= SaleCommission(sales[i])
    ensures ComputeStats(sales).comissaoPendente >= 0.0
    decreases |sales|
  {
    if sales != [] {
      PendingNonNegative(sales[..|sales| - 1]);
      PendingIsSumOfRemaining(sales);
      PendingIsSumOfRemaining(sales[..|sales| - 1]);
    }
  }

  /** Non-negative sale values give a non-negative sales total. */
  lemma {:induction false} TotalValueNonNegative(sales: seq<Sale>)
    requires forall i :: 0 <= i < |sales| ==> 0.0 <= sales[i].valorTotalVenda
    ensures 0.0 <= TotalValue(sales)
    decreases |sales|
  {
    if sales != [] {
      TotalValueNonNegative(sales[..|sales| - 1]);
    }
  }
}
