/** The arqueo list page: its four filters, the surplus/shortage totals, the local
    updates after an edit or a deletion, and the user picker. Pagination is shared
    with the payments page. */
module EncajesPage {
  import opened Wrappers
  import opened Seqs
  import opened Text
  import opened Dates
  import opened Records
  import Names

  /** The filter inputs. A date is the calendar day picked (days since 1970-01-01), or
      `None` while the field is empty; an empty text means no filter. */
  datatype Filters = Filters(searchTerm: string, selectedUsuario: string, fechaInicio: Option<int>, fechaFin: Option<int>)

  const NO_FILTERS: Filters := Filters("", "", None, None)

  /** `normalizarFecha`: a falsy date counts as the epoch. */
  function FechaOf(e: Encaje): JsDate
  {
    Normalize(e.fecha, 0)
  }

  predicate MatchesSearch(e: Encaje, term: string)
  {
    term == ""
    || ContainsIgnoreCase(e.usuarioNombre, term)
    || (e.observaciones.Some? && ContainsIgnoreCase(e.observaciones.value, term))
  }

  predicate MatchesUsuario(e: Encaje, usuario: string)
  {
    usuario == "" || e.usuarioNombre == usuario
  }

  /** On or after local 00:00:00.000 of the start day; `offsetMs` is how far the browser's
      clock runs ahead of UTC. */
  predicate AfterStart(e: Encaje, day: Option<int>, offsetMs: int)
  {
    day.None? || AtMost(Some(LocalMidnight(day.value, offsetMs)), FechaOf(e))
  }

  /** On or before local 23:59:59.999 of the end day. */
  predicate BeforeEnd(e: Encaje, day: Option<int>, offsetMs: int)
  {
    day.None? || AtMost(FechaOf(e), Some(LocalMidnight(day.value, offsetMs) + DAY_MS - 1))
  }

  function SearchFilter(term: string): Encaje -> bool
  {
    e => MatchesSearch(e, term)
  }

  function UsuarioFilter(usuario: string): Encaje -> bool
  {
    e => MatchesUsuario(e, usuario)
  }

  function StartFilter(day: Option<int>, offsetMs: int): Encaje -> bool
  {
    e => AfterStart(e, day, offsetMs)
  }

  function EndFilter(day: Option<int>, offsetMs: int): Encaje -> bool
  {
    e => BeforeEnd(e, day, offsetMs)
  }

  /** `applyFilters`: the four filters one after the other, as the page runs them. */
  function ApplyFilters(es: seq<Encaje>, f: Filters, offsetMs: int): seq<Encaje>
  {
    var bySearch := Filter(es, SearchFilter(f.searchTerm));
    var byUser := Filter(bySearch, UsuarioFilter(f.selectedUsuario));
    var byStart := Filter(byUser, StartFilter(f.fechaInicio, offsetMs));
    Filter(byStart, EndFilter(f.fechaFin, offsetMs))
  }

  /** A record passes every filter. */
  predicate Keep(e: Encaje, f: Filters, offsetMs: int)
  {
    && MatchesSearch(e, f.searchTerm)
    && MatchesUsuario(e, f.selectedUsuario)
    && AfterStart(e, f.fechaInicio, offsetMs)
    && BeforeEnd(e, f.fechaFin, offsetMs)
  }

  function KeepFilter(f: Filters, offsetMs: int): Encaje -> bool
  {
    e => Keep(e, f, offsetMs)
  }

  /** The chain of filters is one conjunctive filter: the page shows, in their original
      order, exactly the records that pass all four. */
  lemma ApplyFiltersConjunctive(es: seq<Encaje>, f: Filters, offsetMs: int)
    ensures ApplyFilters(es, f, offsetMs) == Filter(es, KeepFilter(f, offsetMs))
    ensures IsSubseq(ApplyFilters(es, f, offsetMs), es)
  {
    var p1 := SearchFilter(f.searchTerm);
    var p2 := UsuarioFilter(f.selectedUsuario);
    var p3 := StartFilter(f.fechaInicio, offsetMs);
    var p4 := EndFilter(f.fechaFin, offsetMs);
    var p12 := (e: Encaje) => p1(e) && p2(e);
    var p123 := (e: Encaje) => p12(e) && p3(e);
    FilterFilter(es, p1, p2, p12);
    FilterFilter(es, p12, p3, p123);
    FilterFilter(es, p123, p4, KeepFilter(f, offsetMs));
    FilterIsSubseq(es, KeepFilter(f, offsetMs));
  }

  /** With every field empty, nothing is filtered out. */
  lemma NoFiltersKeepAll(es: seq<Encaje>, offsetMs: int)
    ensures ApplyFilters(es, NO_FILTERS, offsetMs) == es
  {
    ApplyFiltersConjunctive(es, NO_FILTERS, offsetMs);
    FilterAll(es, KeepFilter(NO_FILTERS, offsetMs));
  }

  /** The date bounds are whole local days: with start and end on `day`, a record is
      kept exactly when its date falls in that day, from 00:00:00.000 up to the next
      midnight; a falsy date (absent, `null`, `false`, `0`, `""`) counts as the epoch,
      and an unparsable date never passes a bound. */
  lemma DayBounds(e: Encaje, day: int, offsetMs: int)
    ensures FechaOf(e).Some? ==>
      (AfterStart(e, Some(day), offsetMs) && BeforeEnd(e, Some(day), offsetMs)
       <==> LocalMidnight(day, offsetMs) <= FechaOf(e).value < LocalMidnight(day + 1, offsetMs))
    ensures IsFalsy(e.fecha) ==> FechaOf(e) == Some(0)
    ensures FechaOf(e).None? ==> !AfterStart(e, Some(day), offsetMs) && !BeforeEnd(e, Some(day), offsetMs)
  {
  }

  const Diferencia: Encaje -> int := (e: Encaje) => e.diferencia
  const Surplus: Encaje -> bool := (e: Encaje) => e.diferencia > 0
  const Shortage: Encaje -> bool := (e: Encaje) => e.diferencia < 0

  /** `totalSobrante`: the positive differences. */
  function TotalSobrante(es: seq<Encaje>): int
  {
    SumBy(Filter(es, Surplus), Diferencia)
  }

  /** `totalFaltante`: the absolute values of the negative differences. */
  function TotalFaltante(es: seq<Encaje>): int
  {
    SumBy(Filter(es, Shortage), (e: Encaje) => -e.diferencia)
  }

  /** Both totals are never negative, and surplus minus shortage is the sum of all the
      differences: zero differences add nothing to either side. */
  lemma SurplusShortage(es: seq<Encaje>)
    ensures TotalSobrante(es) >= 0 && TotalFaltante(es) >= 0
    ensures TotalSobrante(es) - TotalFaltante(es) == SumBy(es, Diferencia)
  {
    var absNeg := (e: Encaje) => -e.diferencia;
    var notPos := (e: Encaje) => !Surplus(e);
    var notNeg := (e: Encaje) => !Shortage(e);
    var zero := (e: Encaje) => notPos(e) && notNeg(e);
    SumNonNegative(Filter(es, Surplus), Diferencia);
    SumNonNegative(Filter(es, Shortage), absNeg);
    SumNegate(Filter(es, Shortage), Diferencia, absNeg);
    SumBySplit(es, Diferencia, Surplus, notPos);
    var rest := Filter(es, notPos);
    SumBySplit(rest, Diferencia, Shortage, notNeg);
    FilterFilter(es, notPos, Shortage, Shortage);
    FilterFilter(es, notPos, notNeg, zero);
    SumZero(Filter(rest, notNeg), Diferencia);
  }

  /** `handleSaveEncaje`: the saved record takes the place of every record with its id. */
  function ReplaceById(es: seq<Encaje>, updated: Encaje): (r: seq<Encaje>)
    ensures |r| == |es|
    ensures forall i :: 0 <= i < |es| ==> r[i] == (if es[i].id == updated.id then updated else es[i])
  {
    seq(|es|, i requires 0 <= i < |es| => if es[i].id == updated.id then updated else es[i])
  }

  /** Saving keeps every position's id, so the list keeps its order and its ids, and
      changes nothing at the positions holding another id. */
  lemma ReplaceKeepsIds(es: seq<Encaje>, updated: Encaje)
    ensures forall i :: 0 <= i < |es| ==> ReplaceById(es, updated)[i].id == es[i].id
    ensures forall i :: 0 <= i < |es| && es[i].id != updated.id ==> ReplaceById(es, updated)[i] == es[i]
  {
  }

  /** `confirmDelete`'s update: `prev.filter(e => e.id !== id)`. */
  function DeleteById(es: seq<Encaje>, id: string): seq<Encaje>
  {
    Filter(es, (e: Encaje) => e.id != id)
  }

  /** Deleting removes every record with that id and keeps all the others, in order. */
  lemma DeleteOnlyThat(es: seq<Encaje>, id: string)
    ensures forall i :: 0 <= i < |DeleteById(es, id)| ==> DeleteById(es, id)[i].id != id
    ensures forall i :: 0 <= i < |es| && es[i].id != id ==> es[i] in DeleteById(es, id)
    ensures IsSubseq(DeleteById(es, id), es)
  {
    FilterIsSubseq(es, (e: Encaje) => e.id != id);
  }

  /** The page: the loaded records, the filters, the filtered list, the current page and
      the message of the last failed deletion. */
  datatype Page = Page(encajes: seq<Encaje>, filters: Filters, filtered: seq<Encaje>, currentPage: int,
                       deleteError: Option<string>)

  /** The effect that runs whenever the records or a filter change. */
  function Refresh(p: Page, offsetMs: int): (r: Page)
    ensures r.currentPage == 1
    ensures r.filtered == ApplyFilters(r.encajes, r.filters, offsetMs)
    ensures r.encajes == p.encajes && r.filters == p.filters
  {
    p.(filtered := ApplyFilters(p.encajes, p.filters, offsetMs), currentPage := 1)
  }

  /** Changing a filter shows the new selection from its first page. */
  function SetFilters(p: Page, f: Filters, offsetMs: int): (r: Page)
    ensures r.currentPage == 1 && r.filters == f
    ensures forall e :: e in r.filtered <==> e in p.encajes && Keep(e, f, offsetMs)
  {
    ApplyFiltersConjunctive(p.encajes, f, offsetMs);
    Refresh(p.(filters := f), offsetMs)
  }

  /** After a save, the list holds the edited record in place of the old one and the
      page shows, from its first page and under the same filters, exactly the records of
      the new list that pass them. */
  function OnSave(p: Page, updated: Encaje, offsetMs: int): (r: Page)
    ensures r.currentPage == 1 && r.filters == p.filters && r.deleteError == p.deleteError
    ensures r.encajes == ReplaceById(p.encajes, updated)
    ensures r.filtered == ApplyFilters(r.encajes, p.filters, offsetMs)
    ensures forall e :: e in r.filtered <==> e in r.encajes && Keep(e, p.filters, offsetMs)
  {
    var r := Refresh(p.(encajes := ReplaceById(p.encajes, updated)), offsetMs);
    ApplyFiltersConjunctive(r.encajes, r.filters, offsetMs);
    r
  }

  /** The message `confirmDelete` shows when the server refuses the deletion. */
  const DELETE_ERROR := "Error al eliminar arqueo"

  /** `confirmDelete`, with the record awaiting confirmation (if any) and whether the
      server accepted the DELETE. Without a record nothing happens. A refused deletion
      leaves the list, the filters and the page as they were and shows the error. An
      accepted one drops every record with that id, clears the error, and shows from the
      first page exactly the remaining records that pass the same filters. */
  function OnDelete(p: Page, deleting: Option<string>, ok: bool, offsetMs: int): (r: Page)
    ensures deleting.None? ==> r == p
    ensures deleting.Some? && !ok ==>
      r.encajes == p.encajes && r.filters == p.filters && r.filtered == p.filtered &&
      r.currentPage == p.currentPage && r.deleteError == Some(DELETE_ERROR)
    ensures deleting.Some? && ok ==>
      && r.encajes == DeleteById(p.encajes, deleting.value)
      && r.filters == p.filters && r.currentPage == 1 && r.deleteError.None?
      && (forall e :: e in r.filtered <==>
            e in p.encajes && e.id != deleting.value && Keep(e, p.filters, offsetMs))
      && (forall i :: 0 <= i < |r.filtered| ==> r.filtered[i].id != deleting.value)
  {
    if deleting.None? then p
    else if !ok then p.(deleteError := Some(DELETE_ERROR))
    else
      var id := deleting.value;
      var r := Refresh(p.(encajes := DeleteById(p.encajes, id), deleteError := None), offsetMs);
      DeleteThenFilter(p.encajes, id, p.filters, offsetMs);
      r
  }

  /** The filtered list after a deletion holds exactly the old records with another id
      that pass the filters. */
  lemma DeleteThenFilter(es: seq<Encaje>, id: string, f: Filters, offsetMs: int)
    ensures forall e :: e in ApplyFilters(DeleteById(es, id), f, offsetMs) <==> e in es && e.id != id && Keep(e, f, offsetMs)
  {
    ApplyFiltersConjunctive(DeleteById(es, id), f, offsetMs);
  }

  /** The user picker: the distinct `usuarioNombre` values, sorted. */
  function Usuarios(es: seq<Encaje>): (r: seq<string>)
    ensures Names.StrictlySorted(r)
    ensures forall u :: u in r <==> exists i :: 0 <= i < |es| && es[i].usuarioNombre == u
  {
    var names := seq(|es|, i requires 0 <= i < |es| => es[i].usuarioNombre);
    assert forall u :: u in names <==> exists i :: 0 <= i < |es| && es[i].usuarioNombre == u by {
      forall u ensures u in names <==> exists i :: 0 <= i < |es| && es[i].usuarioNombre == u {
        if u in names {
          var i :| 0 <= i < |names| && names[i] == u;
          assert es[i].usuarioNombre == u;
        }
        if exists i :: 0 <= i < |es| && es[i].usuarioNombre == u {
          var i :| 0 <= i < |es| && es[i].usuarioNombre == u;
          assert names[i] == u;
        }
      }
    }
    Names.SortedUnique(names)
  }
}
