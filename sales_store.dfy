/**
 * The sale collection held by the application, with the modal state that decides whether
 * a submitted sale is an edit or a new record.
 */
module SalesStore {
  import opened Wrappers
  import opened Types

  /** The ids of the sales, position by position. */
  function Ids(sales: seq<Sale>): (ids: seq<string>)
    ensures |ids| == |sales|
    ensures forall i :: 0 <= i < |sales| ==> ids[i] == sales[i].id
    decreases |sales|
  {
    if sales == [] then [] else Ids(sales[..|sales| - 1]) + [sales[|sales| - 1].id]
  }

  predicate UniqueIds(sales: seq<Sale>)
  {
    forall i, j :: 0 <= i < j < |sales| ==> sales[i].id != sales[j].id
  }

  /** Edit: every record carrying the saved sale's id becomes the saved sale. */
  function ReplaceById(sales: seq<Sale>, saved: Sale): (r: seq<Sale>)
    ensures |r| == |sales|
    ensures forall i :: 0 <= i < |sales| ==> r[i] == if sales[i].id == saved.id then saved else sales[i]
    decreases |sales|
  {
    if sales == [] then []
    else
      var last := sales[|sales| - 1];
      ReplaceById(sales[..|sales| - 1], saved) + [if last.id == saved.id then saved else last]
  }

  /** Delete: every record with the id goes, the others stay in their order. */
  function RemoveById(sales: seq<Sale>, id: string): (r: seq<Sale>)
    ensures |r| <= |sales|
    ensures forall x :: x in r ==> x in sales && x.id != id
    decreases |sales|
  {
    if sales == [] then []
    else
      var last := sales[|sales| - 1];
      RemoveById(sales[..|sales| - 1], id) + (if last.id == id then [] else [last])
  }

  /** Deleting keeps every occurrence of each record with another id and none with the id. */
  lemma {:induction false} RemoveByIdCount(sales: seq<Sale>, id: string)
    ensures forall x :: multiset(RemoveById(sales, id))[x] == if x.id == id then 0 else multiset(sales)[x]
    decreases |sales|
  {
    if sales != [] {
      var init, last := sales[..|sales| - 1], sales[|sales| - 1];
      assert sales == init + [last];
      RemoveByIdCount(init, id);
    }
  }

  /** Deleting distributes over concatenation, so the survivors keep their relative order. */
  lemma {:induction false} RemoveByIdAppend(a: seq<Sale>, b: seq<Sale>, id: string)
    ensures RemoveById(a + b, id) == RemoveById(a, id) + RemoveById(b, id)
    decreases |b|
  {
    if b == [] {
      assert a + b == a;
    } else {
      var init, last := b[..|b| - 1], b[|b| - 1];
      var tail := if last.id == id then [] else [last];
      assert (a + b)[..|a + b| - 1] == a + init;
      assert (a + b)[|a + b| - 1] == last;
      assert RemoveById(a + b, id) == RemoveById(a + init, id) + tail;
      assert RemoveById(b, id) == RemoveById(init, id) + tail;
      RemoveByIdAppend(a, init, id);
    }
  }

  /** Deleting an id that no record carries changes nothing. */
  lemma {:induction false} RemoveAbsentId(sales: seq<Sale>, id: string)
    requires id !in Ids(sales)
    ensures RemoveById(sales, id) == sales
    decreases |sales|
  {
    if sales != [] {
      var init := sales[..|sales| - 1];
      assert Ids(sales) == Ids(init) + [sales[|sales| - 1].id];
      RemoveAbsentId(init, id);
    }
  }

  /** An edit never changes any record's id, so it keeps the ids unique and in place. */
  lemma ReplaceKeepsIds(sales: seq<Sale>, saved: Sale)
    ensures Ids(ReplaceById(sales, saved)) == Ids(sales)
  {
  }

  /** Deleting keeps unique ids unique. */
  lemma {:induction false} RemoveKeepsUniqueIds(sales: seq<Sale>, id: string)
    requires UniqueIds(sales)
    ensures UniqueIds(RemoveById(sales, id))
    decreases |sales|
  {
    if sales != [] {
      var init, last := sales[..|sales| - 1], sales[|sales| - 1];
      RemoveKeepsUniqueIds(init, id);
      var r := RemoveById(sales, id);
      if last.id != id {
        assert r == RemoveById(init, id) + [last];
        forall i | 0 <= i < |r| - 1
          ensures r[i].id != last.id
        {
          assert r[i] in RemoveById(init, id);
          var k :| 0 <= k < |init| && init[k] == r[i];
        }
      }
    }
  }

  /** Appending a record whose id is new keeps unique ids unique. */
  lemma AppendFreshKeepsUniqueIds(sales: seq<Sale>, s: Sale)
    requires UniqueIds(sales) && s.id !in Ids(sales)
    ensures UniqueIds(sales + [s])
  {
    assert forall i :: 0 <= i < |sales| ==> Ids(sales)[i] == sales[i].id;
  }

  /** The sales the app starts with when nothing was saved before, as declared. */
  const InitialSales: seq<Sale> := [
    Sale("1", "João Silva", "(11) 98765-4321", "Ana Costa", "Construtora A", "Residencial Sol", "A", "101",
         "2023-10-15", 500000.0, 5.0, 35.0, 8750.0, Liberado, Pago),
    Sale("2", "Maria Oliveira", "(21) 91234-5678", "Bruno Lima", "Construtora B", "Vista do Mar", "C", "305",
         "2023-11-20", 750000.0, 4.5, 35.0, 5000.0, NfsePendenciada, PagoParcialmente),
    Sale("3", "Carlos Pereira", "(31) 99999-8888", "Ana Costa", "Construtora A", "Parque das Flores", "B", "202",
         "2024-01-05", 620000.0, 5.0, 35.0, 0.0, NfseAprovada, Pendente)
  ]

  /**
   * The application state of App.tsx: the sale list, the sale open for editing (if any) and
   * whether the form is open.
   */
  class SalesApp {
    var sales: seq<Sale>
    var editingSale: Option<Sale>
    var isModalOpen: bool

    /**
     * Starts from the previously saved list when one could be read back, from the three
     * starting sales otherwise; the form is closed.
     */
    constructor (saved: Option<seq<Sale>>)
      ensures sales == (if saved.Some? then saved.value else InitialSales)
      ensures editingSale == None && !isModalOpen
    {
      sales := if saved.Some? then saved.value else InitialSales;
      editingSale := None;
      isModalOpen := false;
    }

    /** `handleOpenModal`: opens an empty form for a new sale. */
    method OpenNew()
      modifies this
      ensures isModalOpen && editingSale == None && sales == old(sales)
    {
      editingSale := None;
      isModalOpen := true;
    }

    /** `handleEditSale`: opens the form on an existing sale. */
    method OpenEdit(s: Sale)
      modifies this
      ensures isModalOpen && editingSale == Some(s) && sales == old(sales)
    {
      editingSale := Some(s);
      isModalOpen := true;
    }

    /** `handleCloseModal`. */
    method Close()
      modifies this
      ensures !isModalOpen && editingSale == None && sales == old(sales)
    {
      isModalOpen := false;
      editingSale := None;
    }

    /**
     * `handleSaveSale`: while editing, every record with the saved id is replaced and the
     * length is kept; otherwise the sale is appended once, under the fresh id (a timestamp in
     * the source) that no record carries yet. Unique ids stay unique. The form closes.
     */
    method SaveSale(saleToSave: Sale, freshId: string)
      requires editingSale.None? ==> freshId !in Ids(sales)
      modifies this
      ensures !isModalOpen && editingSale == None
      ensures old(editingSale).Some? ==> sales == ReplaceById(old(sales), saleToSave)
      ensures old(editingSale).None? ==> sales == old(sales) + [saleToSave.(id := freshId)]
      ensures UniqueIds(old(sales)) ==> UniqueIds(sales)
    {
      if editingSale.Some? {
        ReplaceKeepsIds(sales, saleToSave);
        assert forall i :: 0 <= i < |sales| ==> Ids(sales)[i] == sales[i].id;
        sales := ReplaceById(sales, saleToSave);
        assert forall i :: 0 <= i < |sales| ==> Ids(sales)[i] == sales[i].id;
      } else {
        if UniqueIds(sales) {
          AppendFreshKeepsUniqueIds(sales, saleToSave.(id := freshId));
        }
        sales := sales + [saleToSave.(id := freshId)];
      }
      Close();
    }

    /**
     * `handleDeleteSale`: once confirmed, every record with the id is removed; an unconfirmed
     * delete changes nothing.
     */
    method DeleteSale(saleId: string, confirmed: bool)
      modifies this
      ensures sales == if confirmed then RemoveById(old(sales), saleId) else old(sales)
      ensures editingSale == old(editingSale) && isModalOpen == old(isModalOpen)
      ensures UniqueIds(old(sales)) ==> UniqueIds(sales)
    {
      if confirmed {
        if UniqueIds(sales) {
          RemoveKeepsUniqueIds(sales, saleId);
        }
        sales := RemoveById(sales, saleId);
      }
    }
  }
}
