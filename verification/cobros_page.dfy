/** The payments (cobros) list page: its five filters, the totals by payment form, the
    collector picker and the payment-form labels. Pagination is the one the arqueo page
    uses. */
module CobrosPage {
  import opened Wrappers
  import opened Seqs
  import opened Text
  import opened Dates
  import opened Records
  import Names
  import Pagination
  import opened Payments

  /** The filter inputs. A date is the calendar day picked in a date field (days since
      1970-01-01), or `None` while the field is empty; an empty text means no filter. */
  datatype Filters = Filters(
    searchTerm: string,
    selectedUsuario: string,
    selectedFormaPago: string,
    fechaInicio: Option<int>,
    fechaFin: Option<int>)

  const NO_FILTERS: Filters := Filters("", "", "", None, None)

  /** The page reads the dates the API sent back with `new Date(c.fecha)`: a converted
      timestamp or a string parses back to the same instant, and anything else to an
      Invalid Date. */
  function FechaOf(c: Cobro): JsDate
  {
    AsJsDate(c.fecha)
  }

  /** Name, receipt number and notes match ignoring case; the cédula only as typed. */
  predicate MatchesSearch(c: Cobro, term: string)
  {
    || term == ""
    || ContainsIgnoreCase(c.clienteNombre, term)
    || Contains(c.clienteCedula, term)
    || (c.numeroComprobante.Some? && ContainsIgnoreCase(c.numeroComprobante.value, term))
    || (c.observaciones.Some? && ContainsIgnoreCase(c.observaciones.value, term))
  }

  /** `c.createdBy === selectedUsuario`: a payment without a string author never matches. */
  predicate MatchesUsuario(c: Cobro, usuario: string)
  {
    usuario == "" || c.createdBy == Str(usuario)
  }

  predicate MatchesFormaPago(c: Cobro, formaPago: string)
  {
    formaPago == "" || c.formaPago == formaPago
  }

  /** `new Date(c.fecha) >= new Date(fechaInicio)`, the bound being UTC midnight. */
  predicate AfterStart(c: Cobro, day: Option<int>)
  {
    day.None? || AtMost(Some(UtcMidnight(day.value)), FechaOf(c))
  }

  /** `new Date(c.fecha) <= new Date(fechaFin)`: also UTC midnight, not the end of the day. */
  predicate BeforeEnd(c: Cobro, day: Option<int>)
  {
    day.None? || AtMost(FechaOf(c), Some(UtcMidnight(day.value)))
  }

  function SearchFilter(term: string): Cobro -> bool
  {
    c => MatchesSearch(c, term)
  }

  function UsuarioFilter(usuario: string): Cobro -> bool
  {
    c => MatchesUsuario(c, usuario)
  }

  function FormaPagoFilter(formaPago: string): Cobro -> bool
  {
    c => MatchesFormaPago(c, formaPago)
  }

  function StartFilter(day: Option<int>): Cobro -> bool
  {
    c => AfterStart(c, day)
  }

  function EndFilter(day: Option<int>): Cobro -> bool
  {
    c => BeforeEnd(c, day)
  }

  /** `applyFilters`: the five filters one after the other. */
  function ApplyFilters(cs: seq<Cobro>, f: Filters): seq<Cobro>
  {
    var bySearch := Filter(cs, SearchFilter(f.searchTerm));
    var byUser := Filter(bySearch, UsuarioFilter(f.selectedUsuario));
    var byForm := Filter(byUser, FormaPagoFilter(f.selectedFormaPago));
    var byStart := Filter(byForm, StartFilter(f.fechaInicio));
    Filter(byStart, EndFilter(f.fechaFin))
  }

  /** A payment passes every filter. */
  predicate Keep(c: Cobro, f: Filters)
  {
    && MatchesSearch(c, f.searchTerm)
    && MatchesUsuario(c, f.selectedUsuario)
    && MatchesFormaPago(c, f.selectedFormaPago)
    && AfterStart(c, f.fechaInicio)
    && BeforeEnd(c, f.fechaFin)
  }

  function KeepFilter(f: Filters): Cobro -> bool
  {
    c => Keep(c, f)
  }

  /** The chain is one conjunctive filter: the page lists, in their loaded order, exactly
      the payments that pass all five. */
  lemma ApplyFiltersConjunctive(cs: seq<Cobro>, f: Filters)
    ensures ApplyFilters(cs, f) == Filter(cs, KeepFilter(f))
    ensures IsSubseq(ApplyFilters(cs, f), cs)
  {
    var p1 := SearchFilter(f.searchTerm);
    var p2 := UsuarioFilter(f.selectedUsuario);
    var p3 := FormaPagoFilter(f.selectedFormaPago);
    var p4 := StartFilter(f.fechaInicio);
    var p5 := EndFilter(f.fechaFin);
    var p12 := (c: Cobro) => p1(c) && p2(c);
    var p123 := (c: Cobro) => p12(c) && p3(c);
    var p1234 := (c: Cobro) => p123(c) && p4(c);
    FilterFilter(cs, p1, p2, p12);
    FilterFilter(cs, p12, p3, p123);
    FilterFilter(cs, p123, p4, p1234);
    FilterFilter(cs, p1234, p5, KeepFilter(f));
    FilterIsSubseq(cs, KeepFilter(f));
  }

  /** With every field empty, nothing is filtered out. */
  lemma NoFiltersKeepAll(cs: seq<Cobro>)
    ensures ApplyFilters(cs, NO_FILTERS) == cs
  {
    ApplyFiltersConjunctive(cs, NO_FILTERS);
    FilterAll(cs, KeepFilter(NO_FILTERS));
  }

  /** The search finds a term typed exactly as it appears in any searched field, and
      finds the name in any letter case; the cédula is the exception: a lower-cased term
      need not find it. */
  lemma SearchFinds(c: Cobro, term: string)
    ensures Contains(c.clienteNombre, term) || Contains(c.clienteCedula, term) ==> MatchesSearch(c, term)
    ensures Contains(c.clienteNombre, term) ==> MatchesSearch(c, ToLower(term))
  {
    if Contains(c.clienteNombre, term) {
      ContainsLower(c.clienteNombre, term);
      LowerIdempotent(term);
    }
  }

  /** Both bounds are the UTC midnight that starts their day, inclusive: the start bound
      keeps the whole start day, but the end bound drops everything after the first
      instant of the end day; an unreadable date fails any bound. */
  lemma DateBounds(c: Cobro, start: int, end: int)
    ensures FechaOf(c).Some? ==> (AfterStart(c, Some(start)) <==> FechaOf(c).value >= start * DAY_MS)
    ensures FechaOf(c).Some? ==> (BeforeEnd(c, Some(end)) <==> FechaOf(c).value <= end * DAY_MS)
    ensures FechaOf(c).Some? && end * DAY_MS < FechaOf(c).value < (end + 1) * DAY_MS ==> !BeforeEnd(c, Some(end))
    ensures FechaOf(c).None? ==> !AfterStart(c, Some(start)) && !BeforeEnd(c, Some(end))
  {
  }

  /** The `createdBy` values that are strings, in order. */
  function Authors(cs: seq<Cobro>): (r: seq<string>)
    ensures forall u :: u in r <==> exists i :: 0 <= i < |cs| && cs[i].createdBy == Str(u)
    decreases |cs|
  {
    if |cs| == 0 then []
    else
      var rest := Authors(cs[1..]);
      assert forall i :: 1 <= i < |cs| ==> cs[i] == cs[1..][i - 1];
      match cs[0].createdBy
      case Str(u) => [u] + rest
      case _ => rest
  }

  /** The collector picker: the distinct string authors, sorted; other values are dropped. */
  function Usuarios(cs: seq<Cobro>): (r: seq<string>)
    ensures Names.StrictlySorted(r)
    ensures forall u :: u in r <==> exists i :: 0 <= i < |cs| && cs[i].createdBy == Str(u)
  {
    Names.SortedUnique(Authors(cs))
  }

  /** `getFormaPagoLabel`: the four known keys get a capitalised label; anything else
      is shown as stored. */
  function FormaPagoLabel(formaPago: string): string
  {
    match formaPago
    case "efectivo" => "Efectivo"
    case "transferencia" => "Transferencia"
    case "cheque" => "Cheque"
    case "tarjeta" => "Tarjeta"
    case _ => formaPago
  }

  /** Every known key is capitalised and lower-casing its label gives the key back;
      every other value, in any case, is returned unchanged. */
  lemma FormaPagoLabelSpec(formaPago: string)
    ensures formaPago in {"efectivo", "transferencia", "cheque", "tarjeta"} ==>
      ToLower(FormaPagoLabel(formaPago)) == formaPago && FormaPagoLabel(formaPago) != formaPago
    ensures formaPago !in {"efectivo", "transferencia", "cheque", "tarjeta"} ==>
      FormaPagoLabel(formaPago) == formaPago
  {
    if formaPago in {"efectivo", "transferencia", "cheque", "tarjeta"} {
      assert FormaPagoLabel(formaPago)[0] != formaPago[0];
    }
  }

  /** The page after a filter change: the filtered list and the first page. */
  datatype Page = Page(cobros: seq<Cobro>, filters: Filters, filtered: seq<Cobro>, currentPage: int)

  /** The effect run whenever the payments or a filter change. */
  function SetFilters(p: Page, f: Filters): (r: Page)
    ensures r.currentPage == 1 && r.filters == f && r.cobros == p.cobros
    ensures forall c :: c in r.filtered <==> c in p.cobros && Keep(c, f)
    ensures IsSubseq(r.filtered, p.cobros)
  {
    ApplyFiltersConjunctive(p.cobros, f);
    p.(filters := f, filtered := ApplyFilters(p.cobros, f), currentPage := 1)
  }

  /** The listed page and its caption on this page: the pages of the filtered payments
      read in order give back the whole list, and on an existing page the caption
      "Mostrando a-b de n" names exactly the payments shown. */
  lemma PaymentsPaging(p: Page)
    requires 1 <= p.currentPage <= Pagination.TotalPages(|p.filtered|)
    ensures Pagination.FirstPages(p.filtered, Pagination.TotalPages(|p.filtered|)) == p.filtered
    ensures var (first, last) := Pagination.ShownRange(|p.filtered|, p.currentPage);
      && 1 <= first <= last <= |p.filtered|
      && last - first + 1 == |Pagination.PageSlice(p.filtered, p.currentPage)|
  {
    Pagination.PagesPartition(p.filtered);
    Pagination.ShownRangeMatchesSlice(p.filtered, p.currentPage);
  }
}
