/** Sums of payment amounts by payment form, as the payments page and the day's
    statistics compute them. */
module Payments {
  import opened Seqs
  import opened Records

  const Monto: Cobro -> int := (c: Cobro) => c.monto
  const IsEfectivo: Cobro -> bool := (c: Cobro) => c.formaPago == "efectivo"
  const IsTransferencia: Cobro -> bool := (c: Cobro) => c.formaPago == "transferencia"
  /** Any other payment form: cheque, card, or whatever else was stored. */
  const IsOtherForm: Cobro -> bool := (c: Cobro) => !IsEfectivo(c) && !IsTransferencia(c)

  /** `totalMonto` on the payments page and `totalCobrado` in the day's statistics. */
  function TotalMonto(cs: seq<Cobro>): int
  {
    SumBy(cs, Monto)
  }

  /** `totalEfectivo`: the cash payments. */
  function TotalEfectivo(cs: seq<Cobro>): int
  {
    SumBy(Filter(cs, IsEfectivo), Monto)
  }

  /** `totalTransferencias`: the transfers. */
  function TotalTransferencias(cs: seq<Cobro>): int
  {
    SumBy(Filter(cs, IsTransferencia), Monto)
  }

  /** Cash, transfers and the remaining payment forms add up to the total: each payment
      is counted under exactly one form. */
  lemma TotalsByForm(cs: seq<Cobro>)
    ensures TotalEfectivo(cs) + TotalTransferencias(cs) + SumBy(Filter(cs, IsOtherForm), Monto) == TotalMonto(cs)
  {
    assert "transferencia" != "efectivo" by {
      assert "transferencia"[0] != "efectivo"[0];
    }
    var notCash := (c: Cobro) => !IsEfectivo(c);
    var notTransfer := (c: Cobro) => !IsTransferencia(c);
    SumBySplit(cs, Monto, IsEfectivo, notCash);
    var rest := Filter(cs, notCash);
    SumBySplit(rest, Monto, IsTransferencia, notTransfer);
    FilterFilter(cs, notCash, IsTransferencia, IsTransferencia);
    FilterFilter(cs, notCash, notTransfer, IsOtherForm);
  }

  /** With no negative amount, cash and transfers never exceed the total. */
  lemma FormTotalsBounded(cs: seq<Cobro>)
    requires forall i :: 0 <= i < |cs| ==> cs[i].monto >= 0
    ensures 0 <= TotalEfectivo(cs) && 0 <= TotalTransferencias(cs)
    ensures TotalEfectivo(cs) + TotalTransferencias(cs) <= TotalMonto(cs)
  {
    TotalsByForm(cs);
    var other := Filter(cs, IsOtherForm);
    assert forall i :: 0 <= i < |other| ==> other[i] in cs;
    SumNonNegative(other, Monto);
    var cash := Filter(cs, IsEfectivo);
    assert forall i :: 0 <= i < |cash| ==> cash[i] in cs;
    SumNonNegative(cash, Monto);
    var transfers := Filter(cs, IsTransferencia);
    assert forall i :: 0 <= i < |transfers| ==> transfers[i] in cs;
    SumNonNegative(transfers, Monto);
  }
}
