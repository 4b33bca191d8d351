/**
 * The commission calculator and the payment-status projection shared by the sale form,
 * the dashboard totals and the sales table.
 */
module Commission {
  import opened Wrappers
  import opened Types

  /**
   * The seller's commission: the sale value times the total commission percentage times the
   * seller's share of it. No rounding, no range check on the percentages.
   */
  function SellerCommission(value: real, pctTotal: real, pctSeller: real): (c: real)
    ensures value == 0.0 || pctTotal == 0.0 || pctSeller == 0.0 ==> c == 0.0
  {
    value * (pctTotal / 100.0) * (pctSeller / 100.0)
  }

  lemma MulNonNegative(a: real, b: real)
    requires 0.0 <= a && 0.0 <= b
    ensures 0.0 <= a * b
  {
  }

  lemma MulAtMost(a: real, b: real)
    requires 0.0 <= a && b <= 1.0
    ensures a * b <= a
  {
    MulNonNegative(a, 1.0 - b);
    assert a - a * b == a * (1.0 - b);
  }

  /**
   * With a non-negative value and non-negative percentages the commission is non-negative;
   * with both percentages in 0..100 it never exceeds the sale value.
   */
  lemma CommissionBounds(value: real, pctTotal: real, pctSeller: real)
    requires 0.0 <= value && 0.0 <= pctTotal && 0.0 <= pctSeller
    ensures 0.0 <= SellerCommission(value, pctTotal, pctSeller)
    ensures pctTotal <= 100.0 && pctSeller <= 100.0 ==> SellerCommission(value, pctTotal, pctSeller) <= value
  {
    var t, v := pctTotal / 100.0, pctSeller / 100.0;
    var vt := value * t;
    assert SellerCommission(value, pctTotal, pctSeller) == vt * v;
    MulNonNegative(value, t);
    MulNonNegative(vt, v);
    if pctTotal <= 100.0 && pctSeller <= 100.0 {
      MulAtMost(value, t);
      MulAtMost(vt, v);
    }
  }

  /** The seller commission of a stored sale: between zero and the sale value for percentages up to 100. */
  function SaleCommission(s: Sale): (c: real)
    ensures 0.0 <= s.valorTotalVenda && 0.0 <= s.porcentagemComissaoTotal && 0.0 <= s.porcentagemComissaoVendedor
            ==> 0.0 <= c
    ensures (0.0 <= s.valorTotalVenda && 0.0 <= s.porcentagemComissaoTotal <= 100.0
             && 0.0 <= s.porcentagemComissaoVendedor <= 100.0) ==> c <= s.valorTotalVenda
  {
    var c := SellerCommission(s.valorTotalVenda, s.porcentagemComissaoTotal, s.porcentagemComissaoVendedor);
    assert 0.0 <= s.valorTotalVenda && 0.0 <= s.porcentagemComissaoTotal && 0.0 <= s.porcentagemComissaoVendedor
           ==> 0.0 <= c && (s.porcentagemComissaoTotal <= 100.0 && s.porcentagemComissaoVendedor <= 100.0
                            ==> c <= s.valorTotalVenda) by {
      if 0.0 <= s.valorTotalVenda && 0.0 <= s.porcentagemComissaoTotal && 0.0 <= s.porcentagemComissaoVendedor {
        CommissionBounds(s.valorTotalVenda, s.porcentagemComissaoTotal, s.porcentagemComissaoVendedor);
      }
    }
    c
  }

  /** What is still owed to the seller; negative when more than the commission was paid. */
  function Remaining(commission: real, paid: real): (r: real)
    ensures r > 0.0 <==> paid < commission
    ensures r == 0.0 <==> paid == commission
    ensures r + paid == commission
  {
    commission - paid
  }

  /** `Number(paid) || 0`: a missing (or NaN) paid amount counts as zero. */
  function PaidOrZero(paid: Option<real>): (r: real)
    ensures paid.None? ==> r == 0.0
    ensures paid.Some? ==> r == paid.value
  {
    match paid
    case None => 0.0
    case Some(p) => p
  }

  /**
   * The payment status of a paid amount against the seller commission: nothing paid is
   * Pendente, less than the commission is Pago Parcialmente, anything else (including a
   * positive payment against a zero commission) is Pago.
   */
  function DeriveStatus(paid: real, commission: real): (st: StatusPagamento)
    ensures st == Pendente <==> paid <= 0.0
    ensures st == PagoParcialmente <==> 0.0 < paid < commission
    ensures st == Pago <==> 0.0 < paid && commission <= paid
  {
    if paid <= 0.0 then Pendente
    else if paid < commission then PagoParcialmente
    else Pago
  }

  /** The status the form derives from its raw paid field and the computed commission. */
  function StatusOfInput(paid: Option<real>, commission: real): (st: StatusPagamento)
    ensures paid.None? ==> st == Pendente
  {
    DeriveStatus(PaidOrZero(paid), commission)
  }

  /** The status a sale's own amounts call for. */
  function StatusOf(s: Sale): StatusPagamento
  {
    DeriveStatus(s.valorComissaoPaga, SaleCommission(s))
  }

  /**
   * The status agrees with what is still owed: Pago Parcialmente always leaves a positive
   * amount to receive, Pago never does, and Pendente with a positive commission leaves the
   * whole commission (or more) to receive.
   */
  lemma StatusAgreesWithRemaining(paid: real, commission: real)
    ensures DeriveStatus(paid, commission) == PagoParcialmente ==> 0.0 < Remaining(commission, paid) < commission
    ensures DeriveStatus(paid, commission) == Pago ==> Remaining(commission, paid) <= 0.0
    ensures DeriveStatus(paid, commission) == Pendente ==> Remaining(commission, paid) >= commission
  {
  }

  /**
   * A zero commission (one of the percentages is zero) is Pendente with nothing paid and Pago
   * with any positive payment.
   */
  lemma ZeroCommissionBoundary(value: real, pctSeller: real, paid: real)
    ensures SellerCommission(value, 0.0, pctSeller) == 0.0
    ensures DeriveStatus(paid, SellerCommission(value, 0.0, pctSeller)) == (if paid <= 0.0 then Pendente else Pago)
  {
  }

  /** The boundary cases of the first seeded sale: a 500000 sale at 5 % and 35 %. */
  lemma SeededSaleBoundaries()
    ensures SellerCommission(500000.0, 5.0, 35.0) == 8750.0
    ensures DeriveStatus(8750.0, 8750.0) == Pago
    ensures DeriveStatus(5000.0, 8750.0) == PagoParcialmente
    ensures DeriveStatus(0.0, 8750.0) == Pendente
    ensures StatusOfInput(None, 8750.0) == Pendente
    ensures DeriveStatus(1.0, SellerCommission(500000.0, 0.0, 35.0)) == Pago
  {
  }
}
