/**
 * The add/edit sale form: a draft record updated field by field, whose payment status is
 * always re-derived from the paid amount and the computed seller commission.
 */
module SaleFormModal {
  import opened Wrappers
  import opened Types
  import opened Commission

  /** The form's record: a sale without its id. */
  datatype Draft = Draft(
    cliente: string,
    telefone: string,
    corretor: string,
    construtora: string,
    empreendimento: string,
    bloco: string,
    unidade: string,
    dataVenda: string,
    valorTotalVenda: real,
    porcentagemComissaoTotal: real,
    porcentagemComissaoVendedor: real,
    valorComissaoPaga: real,
    statusRepasse: StatusRepasse,
    statusPagamento: StatusPagamento)

  /** The text inputs of the form. */
  datatype TextField =
    | Cliente | Telefone | Corretor | Construtora | Empreendimento | Bloco | Unidade | DataVenda

  /** The numeric inputs of the form, parsed as numbers when they change. */
  datatype NumericField =
    | ValorTotalVenda | PorcentagemComissaoTotal | PorcentagemComissaoVendedor | ValorComissaoPaga

  /** `totalSellerCommission` of the draft. */
  function DraftCommission(d: Draft): real
  {
    SellerCommission(d.valorTotalVenda, d.porcentagemComissaoTotal, d.porcentagemComissaoVendedor)
  }

  /** The draft's status is the one its amounts call for. */
  predicate Consistent(d: Draft)
  {
    d.statusPagamento == DeriveStatus(d.valorComissaoPaga, DraftCommission(d))
  }

  /**
   * The status effect: the status becomes the derived one, whatever it was; no other field
   * changes.
   */
  function WithDerivedStatus(d: Draft): (e: Draft)
    ensures Consistent(e)
    ensures e.(statusPagamento := d.statusPagamento) == d
  {
    d.(statusPagamento := DeriveStatus(d.valorComissaoPaga, DraftCommission(d)))
  }

  /** Re-deriving is idempotent and ignores the status the draft held before. */
  lemma DerivedStatusIdempotent(d: Draft, held: StatusPagamento)
    ensures WithDerivedStatus(WithDerivedStatus(d)) == WithDerivedStatus(d)
    ensures WithDerivedStatus(d.(statusPagamento := held)) == WithDerivedStatus(d)
    ensures Consistent(d) <==> WithDerivedStatus(d) == d
  {
  }

  /** The blank form: value 0, 5 %, 35 %, nothing paid, Pendente, NFS-e pendenciada, today's date. */
  function DefaultDraft(today: string): (d: Draft)
    ensures Consistent(d)
    ensures d.valorTotalVenda == 0.0 && d.valorComissaoPaga == 0.0
    ensures d.porcentagemComissaoTotal == 5.0 && d.porcentagemComissaoVendedor == 35.0
    ensures d.statusPagamento == Pendente && d.statusRepasse == NfsePendenciada
    ensures d.dataVenda == today && d.cliente == "" && d.corretor == ""
  {
    Draft("", "", "", "", "", "", "", today, 0.0, 5.0, 35.0, 0.0, NfsePendenciada, Pendente)
  }

  /** The draft of an existing sale: every field but the id. */
  function FromSale(s: Sale): (d: Draft)
    ensures ToSale(d, s.id) == s
  {
    Draft(s.cliente, s.telefone, s.corretor, s.construtora, s.empreendimento, s.bloco, s.unidade,
          s.dataVenda, s.valorTotalVenda, s.porcentagemComissaoTotal, s.porcentagemComissaoVendedor,
          s.valorComissaoPaga, s.statusRepasse, s.statusPagamento)
  }

  /** The sale a draft submits under an id. */
  function ToSale(d: Draft, id: string): (s: Sale)
    ensures s.id == id
  {
    Sale(id, d.cliente, d.telefone, d.corretor, d.construtora, d.empreendimento, d.bloco, d.unidade,
         d.dataVenda, d.valorTotalVenda, d.porcentagemComissaoTotal, d.porcentagemComissaoVendedor,
         d.valorComissaoPaga, d.statusRepasse, d.statusPagamento)
  }

  /** The value of a text input in a draft. */
  function GetText(d: Draft, f: TextField): string
  {
    match f
    case Cliente => d.cliente
    case Telefone => d.telefone
    case Corretor => d.corretor
    case Construtora => d.construtora
    case Empreendimento => d.empreendimento
    case Bloco => d.bloco
    case Unidade => d.unidade
    case DataVenda => d.dataVenda
  }

  /** The value of a numeric input in a draft. */
  function GetNumber(d: Draft, f: NumericField): real
  {
    match f
    case ValorTotalVenda => d.valorTotalVenda
    case PorcentagemComissaoTotal => d.porcentagemComissaoTotal
    case PorcentagemComissaoVendedor => d.porcentagemComissaoVendedor
    case ValorComissaoPaga => d.valorComissaoPaga
  }

  /**
   * A text input changed: that field takes the typed text and every other field, numbers and
   * statuses included, keeps its value.
   */
  function WithText(d: Draft, f: TextField, v: string): (e: Draft)
    ensures forall g :: GetText(e, g) == if g == f then v else GetText(d, g)
    ensures forall n :: GetNumber(e, n) == GetNumber(d, n)
    ensures e.statusPagamento == d.statusPagamento && e.statusRepasse == d.statusRepasse
    ensures DraftCommission(e) == DraftCommission(d)
  {
    match f
    case Cliente => d.(cliente := v)
    case Telefone => d.(telefone := v)
    case Corretor => d.(corretor := v)
    case Construtora => d.(construtora := v)
    case Empreendimento => d.(empreendimento := v)
    case Bloco => d.(bloco := v)
    case Unidade => d.(unidade := v)
    case DataVenda => d.(dataVenda := v)
  }

  /**
   * A numeric input changed: that field takes the parsed number and every other field, texts
   * and statuses included, keeps its value.
   */
  function WithNumber(d: Draft, f: NumericField, v: real): (e: Draft)
    ensures forall n :: GetNumber(e, n) == if n == f then v else GetNumber(d, n)
    ensures forall g :: GetText(e, g) == GetText(d, g)
    ensures e.statusPagamento == d.statusPagamento && e.statusRepasse == d.statusRepasse
    ensures f == ValorComissaoPaga ==> DraftCommission(e) == DraftCommission(d)
  {
    match f
    case ValorTotalVenda => d.(valorTotalVenda := v)
    case PorcentagemComissaoTotal => d.(porcentagemComissaoTotal := v)
    case PorcentagemComissaoVendedor => d.(porcentagemComissaoVendedor := v)
    case ValorComissaoPaga => d.(valorComissaoPaga := v)
  }

  /** A draft is determined by its texts, its numbers and its two statuses. */
  lemma DraftByFields(d: Draft, e: Draft)
    requires forall g :: GetText(e, g) == GetText(d, g)
    requires forall n :: GetNumber(e, n) == GetNumber(d, n)
    requires e.statusPagamento == d.statusPagamento && e.statusRepasse == d.statusRepasse
    ensures e == d
  {
    assert GetText(e, Cliente) == GetText(d, Cliente) && GetText(e, Telefone) == GetText(d, Telefone);
    assert GetText(e, TextField.Corretor) == GetText(d, TextField.Corretor) && GetText(e, Construtora) == GetText(d, Construtora);
    assert GetText(e, Empreendimento) == GetText(d, Empreendimento) && GetText(e, Bloco) == GetText(d, Bloco);
    assert GetText(e, Unidade) == GetText(d, Unidade) && GetText(e, DataVenda) == GetText(d, DataVenda);
    assert GetNumber(e, ValorTotalVenda) == GetNumber(d, ValorTotalVenda);
    assert GetNumber(e, PorcentagemComissaoTotal) == GetNumber(d, PorcentagemComissaoTotal);
    assert GetNumber(e, PorcentagemComissaoVendedor) == GetNumber(d, PorcentagemComissaoVendedor);
    assert GetNumber(e, ValorComissaoPaga) == GetNumber(d, ValorComissaoPaga);
  }

  /** Typing back the value a field already holds changes nothing. */
  lemma ChangeToSameValue(d: Draft, f: TextField, n: NumericField)
    ensures WithText(d, f, GetText(d, f)) == d
    ensures WithNumber(d, n, GetNumber(d, n)) == d
  {
    DraftByFields(d, WithText(d, f, GetText(d, f)));
    DraftByFields(d, WithNumber(d, n, GetNumber(d, n)));
  }

  /**
   * The sale form of SaleFormModal.tsx. Its invariant is that the status shown (and
   * submitted) is always the derived one; the status control itself is disabled.
   */
  class SaleForm {
    var data: Draft
    /** The sale being edited, or None for a new sale. */
    const sale: Option<Sale>

    ghost predicate Valid()
      reads this
    {
      Consistent(data)
    }

    /**
     * Opening the form: blank for a new sale; for an edit, the sale's fields, after which the
     * status effect re-derives the status from the loaded amounts.
     */
    constructor (sale: Option<Sale>, today: string)
      ensures Valid() && this.sale == sale
      ensures sale.None? ==> data == DefaultDraft(today)
      ensures sale.Some? ==> data == WithDerivedStatus(FromSale(sale.value))
    {
      this.sale := sale;
      if sale.Some? {
        data := WithDerivedStatus(FromSale(sale.value));
      } else {
        data := DefaultDraft(today);
      }
    }

    /** `handleChange` on a text input; the amounts are untouched, so the status stays derived. */
    method ChangeText(f: TextField, v: string)
      requires Valid()
      modifies this
      ensures Valid() && data == WithText(old(data), f, v)
    {
      data := WithText(data, f, v);
    }

    /** `handleChange` on a numeric input, followed by the status effect. */
    method ChangeNumber(f: NumericField, v: real)
      requires Valid()
      modifies this
      ensures Valid() && data == WithDerivedStatus(WithNumber(old(data), f, v))
    {
      data := WithNumber(data, f, v);
      data := data.(statusPagamento := DeriveStatus(data.valorComissaoPaga, DraftCommission(data)));
    }

    /** `handleChange` on the transfer-status select; it is free and derives nothing. */
    method ChangeRepasse(st: StatusRepasse)
      requires Valid()
      modifies this
      ensures Valid() && data == old(data).(statusRepasse := st)
    {
      data := data.(statusRepasse := st);
    }

    /** `remainingCommission`: seller commission minus paid, not clamped. */
    function RemainingCommission(): (r: real)
      reads this
      ensures r + data.valorComissaoPaga == DraftCommission(data)
    {
      Remaining(DraftCommission(data), data.valorComissaoPaga)
    }

    /**
     * The "falta receber" alert shows exactly when the status is Pago Parcialmente, which in a
     * consistent form is exactly when something but not all of the commission was paid.
     */
    function ShowsShortfallAlert(): (shows: bool)
      reads this
      ensures Valid() ==> (shows <==> 0.0 < data.valorComissaoPaga < DraftCommission(data))
    {
      data.statusPagamento == PagoParcialmente
    }

    /** Whenever the alert shows, the amount it announces is positive and below the commission. */
    lemma AlertAmountPositive()
      requires Valid() && ShowsShortfallAlert()
      ensures 0.0 < RemainingCommission() < DraftCommission(data)
    {
      StatusAgreesWithRemaining(data.valorComissaoPaga, DraftCommission(data));
    }

    /**
     * `handleSubmit`: the edited sale's id, or the empty id for a new sale, with the form's
     * fields; the submitted status is the one its amounts call for.
     */
    method Submit() returns (s: Sale)
      requires Valid()
      ensures s == ToSale(data, if sale.Some? then sale.value.id else "")
      ensures s.statusPagamento == StatusOf(s)
    {
      var id := if sale.Some? then sale.value.id else "";
      s := ToSale(data, id);
    }
  }
}
