/** The cash count (arqueo) editor: a count per note and coin denomination, the cash
    total it stands for, the declared total and the projected difference against what
    was collected. Money is in integer cents. */
module Arqueo {
  import opened Wrappers
  import opened Seqs

  /** The twelve denominations of the breakdown, notes first. */
  datatype Denom =
    | Cien | Cincuenta | Veinte | Diez | Cinco | Uno
    | UnDolar | CincuentaCentavos | VeinticincoCentavos | DiezCentavos | CincoCentavos | UnCentavo
  {
    predicate IsNote()
    {
      this in {Cien, Cincuenta, Veinte, Diez, Cinco, Uno}
    }

    /** The face value in cents. */
    function Cents(): (v: int)
      ensures v > 0
      ensures IsNote() ==> v % 100 == 0 && v >= 100
      ensures !IsNote() ==> v <= 100
    {
      match this
      case Cien => 10000
      case Cincuenta => 5000
      case Veinte => 2000
      case Diez => 1000
      case Cinco => 500
      case Uno => 100
      case UnDolar => 100
      case CincuentaCentavos => 50
      case VeinticincoCentavos => 25
      case DiezCentavos => 10
      case CincoCentavos => 5
      case UnCentavo => 1
    }
  }

  /** The notes, in the order the editor and the report list them. */
  const NOTES: seq<Denom> := [Cien, Cincuenta, Veinte, Diez, Cinco, Uno]
  /** The coins, in the order the editor and the report list them. */
  const COINS: seq<Denom> := [UnDolar, CincuentaCentavos, VeinticincoCentavos, DiezCentavos, CincoCentavos, UnCentavo]

  datatype Billetes = Billetes(cien: int, cincuenta: int, veinte: int, diez: int, cinco: int, uno: int)
  datatype Monedas = Monedas(unDolar: int, cincuentaCentavos: int, veinticincoCentavos: int,
                             diezCentavos: int, cincoCentavos: int, unCentavo: int)
  /** A stored breakdown: how many of each note and coin were counted. */
  datatype Desglose = Desglose(billetes: Billetes, monedas: Monedas)

  /** The breakdown the editor starts from when the arqueo has none. */
  const ZERO: Desglose := Desglose(Billetes(0, 0, 0, 0, 0, 0), Monedas(0, 0, 0, 0, 0, 0))

  function Count(g: Desglose, d: Denom): int
  {
    match d
    case Cien => g.billetes.cien
    case Cincuenta => g.billetes.cincuenta
    case Veinte => g.billetes.veinte
    case Diez => g.billetes.diez
    case Cinco => g.billetes.cinco
    case Uno => g.billetes.uno
    case UnDolar => g.monedas.unDolar
    case CincuentaCentavos => g.monedas.cincuentaCentavos
    case VeinticincoCentavos => g.monedas.veinticincoCentavos
    case DiezCentavos => g.monedas.diezCentavos
    case CincoCentavos => g.monedas.cincoCentavos
    case UnCentavo => g.monedas.unCentavo
  }

  /** `setDesglose({...desglose, billetes: {...desglose.billetes, [key]: n}})` and its
      coin twin: the count of `d` becomes `n` and every other count stays. */
  function SetCount(g: Desglose, d: Denom, n: int): (r: Desglose)
    ensures Count(r, d) == n
    ensures forall e :: e != d ==> Count(r, e) == Count(g, e)
  {
    match d
    case Cien => g.(billetes := g.billetes.(cien := n))
    case Cincuenta => g.(billetes := g.billetes.(cincuenta := n))
    case Veinte => g.(billetes := g.billetes.(veinte := n))
    case Diez => g.(billetes := g.billetes.(diez := n))
    case Cinco => g.(billetes := g.billetes.(cinco := n))
    case Uno => g.(billetes := g.billetes.(uno := n))
    case UnDolar => g.(monedas := g.monedas.(unDolar := n))
    case CincuentaCentavos => g.(monedas := g.monedas.(cincuentaCentavos := n))
    case VeinticincoCentavos => g.(monedas := g.monedas.(veinticincoCentavos := n))
    case DiezCentavos => g.(monedas := g.monedas.(diezCentavos := n))
    case CincoCentavos => g.(monedas := g.monedas.(cincoCentavos := n))
    case UnCentavo => g.(monedas := g.monedas.(unCentavo := n))
  }

  /** `parseInt(text) || 0`: an unparsable entry (`None`, NaN) counts as zero. */
  function ParseCount(input: Option<int>): int
  {
    input.GetOr(0)
  }

  /** The input handler of one denomination field. */
  function OnCountInput(g: Desglose, d: Denom, input: Option<int>): (r: Desglose)
    ensures input.None? ==> Count(r, d) == 0
    ensures input.Some? ==> Count(r, d) == input.value
    ensures forall e :: e != d ==> Count(r, e) == Count(g, e)
  {
    SetCount(g, d, ParseCount(input))
  }

  /** `calcularTotalDesglose`, written out term by term as the editor does. */
  function CashTotal(g: Desglose): int
  {
    var b := g.billetes;
    var m := g.monedas;
    (b.cien * 10000 + b.cincuenta * 5000 + b.veinte * 2000 + b.diez * 1000 + b.cinco * 500 + b.uno * 100)
    + (m.unDolar * 100 + m.cincuentaCentavos * 50 + m.veinticincoCentavos * 25
       + m.diezCentavos * 10 + m.cincoCentavos * 5 + m.unCentavo * 1)
  }

  /** What the counted pieces of `ds` are worth, denomination by denomination. */
  function Worth(g: Desglose, ds: seq<Denom>): int
  {
    SumBy(ds, (d: Denom) => Count(g, d) * d.Cents())
  }

  /** The hand-written total is the value of every denomination's count, notes then coins. */
  lemma CashTotalIsWorth(g: Desglose)
    ensures CashTotal(g) == Worth(g, NOTES) + Worth(g, COINS)
  {
    NotesWorth(g);
    CoinsWorth(g);
  }

  /** The notes' part of the hand-written total is what the counted notes are worth. */
  lemma NotesWorth(g: Desglose)
    ensures var b := g.billetes;
      Worth(g, NOTES) == b.cien * 10000 + b.cincuenta * 5000 + b.veinte * 2000 + b.diez * 1000 + b.cinco * 500 + b.uno * 100
  {
    var f := (d: Denom) => Count(g, d) * d.Cents();
    assert Worth(g, NOTES) == f(Cien) + f(Cincuenta) + f(Veinte) + f(Diez) + f(Cinco) + f(Uno) + SumBy(NOTES[6..], f);
  }

  /** The coins' part of the hand-written total is what the counted coins are worth. */
  lemma CoinsWorth(g: Desglose)
    ensures var m := g.monedas;
      Worth(g, COINS) == m.unDolar * 100 + m.cincuentaCentavos * 50 + m.veinticincoCentavos * 25
        + m.diezCentavos * 10 + m.cincoCentavos * 5 + m.unCentavo * 1
  {
    var f := (d: Denom) => Count(g, d) * d.Cents();
    assert Worth(g, COINS) == f(UnDolar) + f(CincuentaCentavos) + f(VeinticincoCentavos)
                              + f(DiezCentavos) + f(CincoCentavos) + f(UnCentavo) + SumBy(COINS[6..], f);
  }

  /** With no negative count the cash total is never negative. */
  lemma CashTotalNonNegative(g: Desglose)
    requires forall d: Denom :: Count(g, d) >= 0
    ensures CashTotal(g) >= 0
  {
    assert Count(g, Cien) >= 0 && Count(g, Cincuenta) >= 0 && Count(g, Veinte) >= 0;
    assert Count(g, Diez) >= 0 && Count(g, Cinco) >= 0 && Count(g, Uno) >= 0;
    assert Count(g, UnDolar) >= 0 && Count(g, CincuentaCentavos) >= 0 && Count(g, VeinticincoCentavos) >= 0;
    assert Count(g, DiezCentavos) >= 0 && Count(g, CincoCentavos) >= 0 && Count(g, UnCentavo) >= 0;
  }

  /** Setting one count changes the total by that count's change times its face value. */
  lemma SetCountTotal(g: Desglose, d: Denom, n: int)
    ensures CashTotal(SetCount(g, d, n)) == CashTotal(g) + (n - Count(g, d)) * d.Cents()
  {
  }

  /** One more piece of `d` raises the cash total by exactly its face value. */
  lemma AddOnePiece(g: Desglose, d: Denom)
    ensures CashTotal(SetCount(g, d, Count(g, d) + 1)) == CashTotal(g) + d.Cents()
  {
    SetCountTotal(g, d, Count(g, d) + 1);
  }

  /** The breakdown the editor shows: the stored one, or all zeros. */
  function InitialDesglose(stored: Option<Desglose>): (g: Desglose)
    ensures stored.Some? ==> g == stored.value
    ensures stored.None? ==> forall d: Denom :: Count(g, d) == 0
  {
    stored.GetOr(ZERO)
  }

  /** A breakdown with no pieces is worth nothing, the editor's starting one included;
      with no negative count, a zero total means no piece was counted at all. */
  lemma ZeroTotalIffNoPieces(g: Desglose)
    ensures CashTotal(InitialDesglose(None)) == 0
    ensures (forall d: Denom :: Count(g, d) == 0) ==> CashTotal(g) == 0
    ensures (forall d: Denom :: Count(g, d) >= 0) && CashTotal(g) == 0 ==> forall d: Denom :: Count(g, d) == 0
  {
    assert (forall d: Denom :: Count(g, d) == 0) ==> CashTotal(g) == 0 by {
      if forall d: Denom :: Count(g, d) == 0 {
        assert Count(g, Cien) == 0 && Count(g, Cincuenta) == 0 && Count(g, Veinte) == 0;
        assert Count(g, Diez) == 0 && Count(g, Cinco) == 0 && Count(g, Uno) == 0;
        assert Count(g, UnDolar) == 0 && Count(g, CincuentaCentavos) == 0 && Count(g, VeinticincoCentavos) == 0;
        assert Count(g, DiezCentavos) == 0 && Count(g, CincoCentavos) == 0 && Count(g, UnCentavo) == 0;
      }
    }
    if (forall d: Denom :: Count(g, d) >= 0) && CashTotal(g) == 0 {
      forall d: Denom ensures Count(g, d) == 0 {
        NoPieceOfZeroTotal(g, d);
      }
    }
  }

  /** With no negative count and a zero total, removing every piece of `d` would make the
      total negative unless there were none. */
  lemma NoPieceOfZeroTotal(g: Desglose, d: Denom)
    requires forall e: Denom :: Count(g, e) >= 0
    requires CashTotal(g) == 0
    ensures Count(g, d) == 0
  {
    var n := SetCount(g, d, 0);
    assert forall e: Denom :: Count(n, e) >= 0 by {
      forall e: Denom ensures Count(n, e) >= 0 {
        if e != d { assert Count(n, e) == Count(g, e); }
      }
    }
    CashTotalNonNegative(n);
    SetCountTotal(g, d, 0);
  }

  /** The editor's form state. */
  datatype Form = Form(totalDeclarado: int, efectivo: int, transferencia: int, desglose: Desglose, observaciones: string)

  /** The effect run whenever the breakdown or the transfer changes: cash becomes the
      breakdown's total and the declared total becomes cash plus transfer. */
  function Recompute(f: Form): (r: Form)
    ensures r.efectivo == CashTotal(f.desglose)
    ensures r.totalDeclarado == r.efectivo + r.transferencia
    ensures r.transferencia == f.transferencia && r.desglose == f.desglose && r.observaciones == f.observaciones
  {
    var cash := CashTotal(f.desglose);
    f.(totalDeclarado := cash + f.transferencia, efectivo := cash)
  }

  /** The transfer field's handler: `parseFloat(text) || 0`, in cents. */
  function OnTransferInput(f: Form, input: Option<int>): Form
  {
    f.(transferencia := input.GetOr(0))
  }

  /** Editing a count, then running the effect, moves the declared total by the value of
      the edit and leaves the transfer as it was. */
  lemma EditThenRecompute(f: Form, d: Denom, input: Option<int>)
    ensures var r := Recompute(f.(desglose := OnCountInput(f.desglose, d, input)));
      && r.transferencia == f.transferencia
      && r.totalDeclarado == CashTotal(f.desglose) + (ParseCount(input) - Count(f.desglose, d)) * d.Cents() + f.transferencia
  {
    SetCountTotal(f.desglose, d, ParseCount(input));
  }

  /** Running the effect again changes nothing. */
  lemma RecomputeIdempotent(f: Form)
    ensures Recompute(Recompute(f)) == Recompute(f)
  {
  }

  /** How the difference between collected and declared money reads. */
  datatype Outcome = Surplus | Shortage | Exact

  function Classify(d: int): (o: Outcome)
    ensures o == Surplus <==> d > 0
    ensures o == Shortage <==> d < 0
    ensures o == Exact <==> d == 0
  {
    if d > 0 then Surplus else if d < 0 then Shortage else Exact
  }

  /** `nuevaDiferencia = encaje.totalCobrado - totalDeclarado`. */
  function NuevaDiferencia(totalCobrado: int, f: Form): int
  {
    totalCobrado - f.totalDeclarado
  }

  /** The editor's label under the projected difference. */
  function DiferenciaLabel(d: int): string
  {
    match Classify(d)
    case Surplus => "Sobrante"
    case Shortage => "Faltante"
    case Exact => "Exacto"
  }

  /** After the effect, the projected difference reads as a surplus exactly when more
      was collected than the breakdown plus the transfer, and as exact when they match. */
  lemma ProjectedDifference(totalCobrado: int, f: Form)
    ensures var r := Recompute(f);
      var d := NuevaDiferencia(totalCobrado, r);
      && d == totalCobrado - CashTotal(f.desglose) - f.transferencia
      && (DiferenciaLabel(d) == "Sobrante" <==> totalCobrado > CashTotal(f.desglose) + f.transferencia)
      && (DiferenciaLabel(d) == "Faltante" <==> totalCobrado < CashTotal(f.desglose) + f.transferencia)
      && (DiferenciaLabel(d) == "Exacto" <==> totalCobrado == CashTotal(f.desglose) + f.transferencia)
  {
    var d := NuevaDiferencia(totalCobrado, Recompute(f));
    assert "Sobrante" != "Faltante" && "Sobrante" != "Exacto" && "Faltante" != "Exacto" by {
      assert "Sobrante"[0] != "Faltante"[0] && "Sobrante"[0] != "Exacto"[0] && "Faltante"[0] != "Exacto"[0];
    }
  }
}
