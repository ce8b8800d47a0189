/** The printable arqueo report: the note and coin tables with their footers, the cheque
    table, and the difference banner. Amounts are in cents; the locale formatting of
    amounts is the parameter `fmt`. */
module ArqueoReport {
  import opened Wrappers
  import opened Seqs
  import opened Text
  import opened Arqueo

  /** One row of a denomination table: caption, count and value. */
  datatype DenomRow = DenomRow(caption: string, cant: int, val: int)

  function DenomLabel(d: Denom): string
  {
    match d
    case Cien => "$100"
    case Cincuenta => "$50"
    case Veinte => "$20"
    case Diez => "$10"
    case Cinco => "$5"
    case Uno => "$1"
    case UnDolar => "$1.00"
    case CincuentaCentavos => "$0.50"
    case VeinticincoCentavos => "$0.25"
    case DiezCentavos => "$0.10"
    case CincoCentavos => "$0.05"
    case UnCentavo => "$0.01"
  }

  function RowOf(g: Desglose, d: Denom): DenomRow
  {
    DenomRow(DenomLabel(d), Count(g, d), Count(g, d) * d.Cents())
  }

  /** A row for every denomination of `ds`, before the zero counts are dropped. */
  function AllRows(g: Desglose, ds: seq<Denom>): (rows: seq<DenomRow>)
    ensures |rows| == |ds|
    ensures forall i :: 0 <= i < |ds| ==> rows[i] == RowOf(g, ds[i])
  {
    seq(|ds|, i requires 0 <= i < |ds| => RowOf(g, ds[i]))
  }

  predicate Counted(r: DenomRow)
  {
    r.cant > 0
  }

  /** `filasBilletes` (with `NOTES`) and `filasMonedas` (with `COINS`): no rows without a
      breakdown; otherwise a row per denomination in the fixed order, keeping only
      counts above zero. */
  function TableRows(dsg: Option<Desglose>, ds: seq<Denom>): (rows: seq<DenomRow>)
    ensures dsg.None? ==> rows == []
    ensures forall k :: 0 <= k < |rows| ==> rows[k].cant > 0
    ensures dsg.Some? ==> forall k :: 0 <= k < |rows| ==>
      exists i :: 0 <= i < |ds| && rows[k] == RowOf(dsg.value, ds[i])
    ensures dsg.Some? ==> forall i :: 0 <= i < |ds| && Count(dsg.value, ds[i]) > 0 ==>
      RowOf(dsg.value, ds[i]) in rows
  {
    match dsg
    case None => []
    case Some(g) =>
      var all := AllRows(g, ds);
      var rows := Filter(all, Counted);
      assert forall k :: 0 <= k < |rows| ==> rows[k] in all;
      rows
  }

  /** The rows keep the fixed denomination order. */
  lemma TableRowsInOrder(g: Desglose, ds: seq<Denom>)
    ensures IsSubseq(TableRows(Some(g), ds), AllRows(g, ds))
  {
    FilterIsSubseq(AllRows(g, ds), Counted);
  }

  /** `filas.reduce((s, f) => s + f.val, 0)`, the table's footer. */
  function FooterTotal(rows: seq<DenomRow>): int
  {
    SumBy(rows, (r: DenomRow) => r.val)
  }

  /** Dropping rows whose count is zero, and which are therefore worth zero, leaves the
      footer unchanged. */
  lemma {:induction false} DropZeroRows(rows: seq<DenomRow>)
    requires forall k :: 0 <= k < |rows| ==> rows[k].cant >= 0 && (rows[k].cant == 0 ==> rows[k].val == 0)
    ensures FooterTotal(Filter(rows, Counted)) == FooterTotal(rows)
    decreases |rows|
  {
    if |rows| > 0 {
      DropZeroRows(rows[1..]);
      var head := if Counted(rows[0]) then [rows[0]] else [];
      SumByAppend(head, Filter(rows[1..], Counted), (r: DenomRow) => r.val);
    }
  }

  lemma {:induction false} AllRowsWorth(g: Desglose, ds: seq<Denom>)
    ensures FooterTotal(AllRows(g, ds)) == Worth(g, ds)
    decreases |ds|
  {
    if |ds| > 0 {
      AllRowsWorth(g, ds[1..]);
      assert AllRows(g, ds)[1..] == AllRows(g, ds[1..]);
    }
  }

  /** With no negative count, every row's count is at least zero and a zero count is
      worth zero. */
  lemma AllRowsZeroWorthless(g: Desglose, ds: seq<Denom>)
    requires forall i :: 0 <= i < |ds| ==> Count(g, ds[i]) >= 0
    ensures var all := AllRows(g, ds);
      forall k :: 0 <= k < |all| ==> all[k].cant >= 0 && (all[k].cant == 0 ==> all[k].val == 0)
  {
    var all := AllRows(g, ds);
    forall k | 0 <= k < |all| ensures all[k].cant >= 0 && (all[k].cant == 0 ==> all[k].val == 0) {
      assert all[k] == RowOf(g, ds[k]);
    }
  }

  lemma DroppedRowsWorthNothing(g: Desglose, ds: seq<Denom>)
    requires forall i :: 0 <= i < |ds| ==> Count(g, ds[i]) >= 0
    ensures FooterTotal(TableRows(Some(g), ds)) == Worth(g, ds)
  {
    AllRowsZeroWorthless(g, ds);
    DropZeroRows(AllRows(g, ds));
    AllRowsWorth(g, ds);
  }

  /** With no negative count, the two footers add up to the editor's cash total: the
      dropped rows were worth nothing. */
  lemma FootersMatchCashTotal(g: Desglose)
    requires forall d: Denom :: Count(g, d) >= 0
    ensures FooterTotal(TableRows(Some(g), NOTES)) + FooterTotal(TableRows(Some(g), COINS)) == CashTotal(g)
  {
    DroppedRowsWorthNothing(g, NOTES);
    DroppedRowsWorthNothing(g, COINS);
    CashTotalIsWorth(g);
  }

  /** A rendered table row: the placeholder spanning the table, or three cells. */
  datatype TableRow = Placeholder(text: string) | Cells(first: string, second: string, third: string)

  /** `renderFilasDenominacion`. */
  function RenderDenomRows(rows: seq<DenomRow>, fmt: int -> string): seq<TableRow>
  {
    if |rows| == 0 then [Placeholder("Sin denominaciones registradas")]
    else seq(|rows|, k requires 0 <= k < |rows| => Cells(rows[k].caption, IntStr(rows[k].cant), "$" + fmt(rows[k].val)))
  }

  /** The denominations of `ds` with at least one piece counted, in the order of `ds`. */
  function CountedDenoms(g: Desglose, ds: seq<Denom>): seq<Denom>
  {
    Filter(ds, (d: Denom) => Count(g, d) > 0)
  }

  /** Keeping the rows with a positive count is building rows for the denominations
      with a positive count. */
  lemma {:induction false} CountedRowsAre(g: Desglose, ds: seq<Denom>)
    ensures Filter(AllRows(g, ds), Counted) == AllRows(g, CountedDenoms(g, ds))
    decreases |ds|
  {
    if |ds| > 0 {
      CountedRowsAre(g, ds[1..]);
      var head := if Count(g, ds[0]) > 0 then [ds[0]] else [];
      var tail := CountedDenoms(g, ds[1..]);
      assert CountedDenoms(g, ds) == head + tail;
      CountedRowsHead(g, ds);
      AllRowsAppend(g, head, tail);
    }
  }

  lemma CountedRowsHead(g: Desglose, ds: seq<Denom>)
    requires |ds| > 0
    ensures Filter(AllRows(g, ds), Counted)
      == AllRows(g, if Count(g, ds[0]) > 0 then [ds[0]] else []) + Filter(AllRows(g, ds[1..]), Counted)
  {
    var all := AllRows(g, ds);
    assert all[1..] == AllRows(g, ds[1..]);
    assert Filter(all, Counted) == (if Counted(all[0]) then [all[0]] else []) + Filter(all[1..], Counted);
    assert [all[0]] == AllRows(g, [ds[0]]);
  }

  lemma AllRowsAppend(g: Desglose, a: seq<Denom>, b: seq<Denom>)
    ensures AllRows(g, a + b) == AllRows(g, a) + AllRows(g, b)
  {
  }

  /** The printed note or coin table of a breakdown: the placeholder exactly when no
      denomination was counted; otherwise one row per counted denomination, in the
      fixed order, showing its label, a count that reads back as the number of pieces,
      and the value of those pieces. */
  lemma RenderedDenomTable(g: Desglose, ds: seq<Denom>, fmt: int -> string)
    ensures var out := RenderDenomRows(TableRows(Some(g), ds), fmt);
      var c := CountedDenoms(g, ds);
      && IsSubseq(c, ds)
      && (forall d :: d in c <==> d in ds && Count(g, d) > 0)
      && (|c| == 0 <==> out == [Placeholder("Sin denominaciones registradas")])
      && (|c| > 0 ==> |out| == |c|)
      && (forall k :: 0 <= k < |c| ==>
            && out[k].Cells?
            && out[k].first == DenomLabel(c[k])
            && ReadNat(out[k].second) == (Count(g, c[k]), "")
            && out[k].third == "$" + fmt(Count(g, c[k]) * c[k].Cents()))
  {
    var c := CountedDenoms(g, ds);
    FilterIsSubseq(ds, (d: Denom) => Count(g, d) > 0);
    CountedRowsAre(g, ds);
    assert TableRows(Some(g), ds) == AllRows(g, c);
    RenderedRows(g, c, fmt);
  }

  /** The rendering of the rows of denominations that all have pieces counted. */
  lemma RenderedRows(g: Desglose, c: seq<Denom>, fmt: int -> string)
    requires forall k :: 0 <= k < |c| ==> Count(g, c[k]) > 0
    ensures var out := RenderDenomRows(AllRows(g, c), fmt);
      && (|c| == 0 <==> out == [Placeholder("Sin denominaciones registradas")])
      && (|c| > 0 ==> |out| == |c|)
      && (forall k :: 0 <= k < |c| ==>
            && out[k].Cells?
            && out[k].first == DenomLabel(c[k])
            && ReadNat(out[k].second) == (Count(g, c[k]), "")
            && out[k].third == "$" + fmt(Count(g, c[k]) * c[k].Cents()))
  {
    var rows := AllRows(g, c);
    var out := RenderDenomRows(rows, fmt);
    forall k | 0 <= k < |c|
      ensures out[k] == Cells(DenomLabel(c[k]), IntStr(Count(g, c[k])), "$" + fmt(Count(g, c[k]) * c[k].Cents()))
      ensures ReadNat(out[k].second) == (Count(g, c[k]), "")
    {
      assert rows[k] == RowOf(g, c[k]);
      assert NatStr(Count(g, c[k])) + "" == IntStr(Count(g, c[k]));
      ReadNatStr(Count(g, c[k]), "");
    }
    if |c| > 0 {
      assert out[0].Cells?;
    }
  }

  datatype Cheque = Cheque(banco: string, numeroCheque: string, valor: int)

  /** `filasChequesHtml`: a 'Sin cheques' row for none, otherwise the cheques numbered from 1. */
  function ChequeRows(cheques: seq<Cheque>, fmt: int -> string): seq<TableRow>
  {
    if |cheques| == 0 then [Placeholder("Sin cheques")]
    else seq(|cheques|, i requires 0 <= i < |cheques| =>
           Cells(NatStr(i + 1) + ". " + cheques[i].banco, "N°" + cheques[i].numeroCheque, "$" + fmt(cheques[i].valor)))
  }

  /** The cheque table's footer, present only when there are cheques; it shows the
      stored `totalCheques`, or zero. */
  function ChequeFooter(cheques: seq<Cheque>, totalCheques: Option<int>, fmt: int -> string): (f: Option<string>)
    ensures f.Some? <==> |cheques| > 0
  {
    if |cheques| > 0 then Some("$" + fmt(totalCheques.GetOr(0))) else None
  }

  /** Reading the number in front of each cheque row gives its position counted from 1,
      followed by the bank; an empty list gives one placeholder row. */
  lemma ChequeNumbering(cheques: seq<Cheque>, fmt: int -> string)
    ensures |cheques| == 0 ==> ChequeRows(cheques, fmt) == [Placeholder("Sin cheques")]
    ensures |cheques| > 0 ==> |ChequeRows(cheques, fmt)| == |cheques|
    ensures forall i :: 0 <= i < |cheques| ==>
      ChequeRows(cheques, fmt)[i].Cells? && ReadNat(ChequeRows(cheques, fmt)[i].first) == (i + 1, ". " + cheques[i].banco)
  {
    forall i | 0 <= i < |cheques|
      ensures ReadNat(ChequeRows(cheques, fmt)[i].first) == (i + 1, ". " + cheques[i].banco)
    {
      assert ChequeRows(cheques, fmt)[i].first == NatStr(i + 1) + (". " + cheques[i].banco);
      ReadNatStr(i + 1, ". " + cheques[i].banco);
    }
  }

  /** `difLabel` and the amount next to it, `Math.abs(diferencia)`. */
  function DifBanner(diferencia: int): (string, int)
  {
    var amount := if diferencia < 0 then -diferencia else diferencia;
    match Classify(diferencia)
    case Surplus => ("SOBRANTE", amount)
    case Shortage => ("FALTANTE", amount)
    case Exact => ("EXACTO", amount)
  }

  /** The banner loses nothing: its label and unsigned amount give back the signed
      difference, and the label follows the sign. */
  lemma DifBannerRecoversDifference(diferencia: int)
    ensures var (caption, amount) := DifBanner(diferencia);
      && amount >= 0
      && (caption == "SOBRANTE" <==> diferencia > 0)
      && (caption == "FALTANTE" <==> diferencia < 0)
      && (caption == "EXACTO" <==> diferencia == 0)
      && (if caption == "FALTANTE" then -amount else amount) == diferencia
  {
    assert "SOBRANTE" != "FALTANTE" && "SOBRANTE" != "EXACTO" && "FALTANTE" != "EXACTO" by {
      assert "SOBRANTE"[0] != "FALTANTE"[0] && "SOBRANTE"[0] != "EXACTO"[0] && "FALTANTE"[0] != "EXACTO"[0];
    }
  }
}
