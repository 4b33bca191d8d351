/** What the model says about the three sales the app starts with. */
module SeedData {
  import opened Types
  import opened Commission
  import opened Stats
  import opened SalesStore

  /** The seller commissions of the starting sales: 8750, 11812.5 and 10850. */
  lemma InitialCommissions()
    ensures SaleCommission(InitialSales[0]) == 8750.0
    ensures SaleCommission(InitialSales[1]) == 11812.5
    ensures SaleCommission(InitialSales[2]) == 10850.0
  {
  }

  /** Each starting sale's stored payment status is the one its amounts derive. */
  lemma InitialStatusesAreDerived()
    ensures forall i :: 0 <= i < |InitialSales| ==> InitialSales[i].statusPagamento == StatusOf(InitialSales[i])
  {
    InitialCommissions();
  }

  /** The starting sales have distinct ids, so saving and deleting by id address one sale each. */
  lemma InitialIdsAreUnique()
    ensures UniqueIds(InitialSales)
  {
  }

  /**
   * The dashboard totals over the starting sales: 1,870,000 sold, 31,412.5 commission,
   * 13,750 paid and 17,662.5 pending.
   */
  lemma InitialStats()
    ensures ComputeStats(InitialSales) == DashboardStats(1870000.0, 31412.5, 13750.0, 17662.5)
  {
    var s := InitialSales;
    InitialCommissions();
    assert s[..0] == [];
    assert s[..1][..0] == s[..0] && s[..2][..1] == s[..1] && s[..3][..2] == s[..2] && s[..3] == s;
    assert TotalValue(s[..1]) == 500000.0;
    assert TotalCommission(s[..1]) == 8750.0;
    assert TotalPaid(s[..1]) == 8750.0;
    assert TotalValue(s[..2]) == 1250000.0;
    assert TotalCommission(s[..2]) == 20562.5;
    assert TotalPaid(s[..2]) == 13750.0;
  }
}
