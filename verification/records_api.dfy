/** The two list endpoints, `GET /api/cobros` and `GET /api/encajes`: the database
    returns the records newest first (and, given a user, only that user's), and the
    route then filters them in memory. The query results are the input sequences. */
module RecordsApi {
  import opened Wrappers
  import opened Seqs
  import opened Text
  import opened Dates
  import opened Records

  /** `searchParams.get(name)` tested with `if (param)`: present and not empty. */
  predicate Given(param: Option<string>)
  {
    param.Some? && param.value != ""
  }

  /** A date query parameter: its text and what `new Date(text)` makes of it. */
  datatype DateParam = DateParam(text: string, parsed: JsDate)

  predicate DateGiven(param: Option<DateParam>)
  {
    param.Some? && param.value.text != ""
  }

  /** The in-memory date filter: a record is dropped when it lies strictly before a
      given start or strictly after a given end. Comparisons with an Invalid Date are
      false, so such a record, or any record against an unreadable bound, is kept. */
  predicate InDateRange(fecha: JsDate, fechaInicio: Option<DateParam>, fechaFin: Option<DateParam>)
  {
    && !(DateGiven(fechaInicio) && Before(fecha, fechaInicio.value.parsed))
    && !(DateGiven(fechaFin) && Before(fechaFin.value.parsed, fecha))
  }

  /** A record's date as the routes read it: `new Date(data.fecha?.toDate?.() || data.fecha)`. */
  function CobroFecha(c: Cobro): JsDate
  {
    AsJsDate(c.fecha)
  }

  function EncajeFecha(e: Encaje): JsDate
  {
    AsJsDate(e.fecha)
  }

  /** The query parameters of `GET /api/cobros`. */
  datatype CobrosQuery = CobrosQuery(
    usuario: Option<string>,
    cliente: Option<string>,
    formaPago: Option<string>,
    fechaInicio: Option<DateParam>,
    fechaFin: Option<DateParam>)

  predicate ByUsuario(c: Cobro, q: CobrosQuery)
  {
    !Given(q.usuario) || c.createdBy == Str(q.usuario.value)
  }

  /** The client's name ignoring case, or the cédula as typed. */
  predicate ByCliente(c: Cobro, q: CobrosQuery)
  {
    !Given(q.cliente)
    || ContainsIgnoreCase(c.clienteNombre, q.cliente.value)
    || Contains(c.clienteCedula, q.cliente.value)
  }

  predicate ByFormaPago(c: Cobro, q: CobrosQuery)
  {
    !Given(q.formaPago) || c.formaPago == q.formaPago.value
  }

  predicate ByFecha(c: Cobro, q: CobrosQuery)
  {
    InDateRange(CobroFecha(c), q.fechaInicio, q.fechaFin)
  }

  function UsuarioStep(q: CobrosQuery): Cobro -> bool
  {
    c => ByUsuario(c, q)
  }

  function ClienteStep(q: CobrosQuery): Cobro -> bool
  {
    c => ByCliente(c, q)
  }

  function FormaPagoStep(q: CobrosQuery): Cobro -> bool
  {
    c => ByFormaPago(c, q)
  }

  function FechaStep(q: CobrosQuery): Cobro -> bool
  {
    c => ByFecha(c, q)
  }

  /** The records the route sends back, from the newest-first collection `all`. */
  function GetCobros(all: seq<Cobro>, q: CobrosQuery): seq<Cobro>
  {
    var queried := Filter(all, UsuarioStep(q));
    var byCliente := Filter(queried, ClienteStep(q));
    var byForma := Filter(byCliente, FormaPagoStep(q));
    Filter(byForma, FechaStep(q))
  }

  predicate CobroSelected(c: Cobro, q: CobrosQuery)
  {
    ByUsuario(c, q) && ByCliente(c, q) && ByFormaPago(c, q) && ByFecha(c, q)
  }

  function CobroSelector(q: CobrosQuery): Cobro -> bool
  {
    c => CobroSelected(c, q)
  }

  /** The route returns exactly the records meeting every given condition, never adds
      one, and keeps the database's order: whatever key the collection was sorted by
      in descending order, the answer is sorted by it too. */
  lemma GetCobrosSpec(all: seq<Cobro>, q: CobrosQuery, key: Cobro -> int)
    ensures GetCobros(all, q) == Filter(all, CobroSelector(q))
    ensures IsSubseq(GetCobros(all, q), all)
    ensures SortedDesc(all, key) ==> SortedDesc(GetCobros(all, q), key)
  {
    var p12 := (c: Cobro) => ByUsuario(c, q) && ByCliente(c, q);
    var p123 := (c: Cobro) => p12(c) && ByFormaPago(c, q);
    FilterFilter(all, UsuarioStep(q), ClienteStep(q), p12);
    FilterFilter(all, p12, FormaPagoStep(q), p123);
    FilterFilter(all, p123, FechaStep(q), CobroSelector(q));
    FilterIsSubseq(all, CobroSelector(q));
    if SortedDesc(all, key) {
      FilterKeepsSorted(all, CobroSelector(q), key);
    }
  }

  /** Both date bounds are inclusive and each is optional: with readable bounds, a
      readable date passes exactly when it lies between them, ends included. A date
      that cannot be read passes any bound. */
  lemma DateRangeInclusive(fecha: JsDate, fechaInicio: Option<DateParam>, fechaFin: Option<DateParam>)
    ensures fecha.Some? ==>
      (InDateRange(fecha, fechaInicio, fechaFin) <==>
        && (DateGiven(fechaInicio) && fechaInicio.value.parsed.Some? ==> fechaInicio.value.parsed.value <= fecha.value)
        && (DateGiven(fechaFin) && fechaFin.value.parsed.Some? ==> fecha.value <= fechaFin.value.parsed.value))
    ensures fecha.None? ==> InDateRange(fecha, fechaInicio, fechaFin)
    ensures !DateGiven(fechaInicio) && !DateGiven(fechaFin) ==> InDateRange(fecha, fechaInicio, fechaFin)
  {
  }

  /** What an endpoint answers: the records, or an error status and message. */
  datatype Response<T> = Ok(body: T) | Error(status: int, message: string)

  /** The query parameters of `GET /api/encajes`. */
  datatype EncajesQuery = EncajesQuery(
    usuario: Option<string>,
    fechaInicio: Option<DateParam>,
    fechaFin: Option<DateParam>)

  predicate EncajeSelected(e: Encaje, q: EncajesQuery)
  {
    && (!Given(q.usuario) || e.usuarioNombre == q.usuario.value)
    && InDateRange(EncajeFecha(e), q.fechaInicio, q.fechaFin)
  }

  function EncajeUsuarioStep(q: EncajesQuery): Encaje -> bool
  {
    (e: Encaje) => !Given(q.usuario) || e.usuarioNombre == q.usuario.value
  }

  function EncajeFechaStep(q: EncajesQuery): Encaje -> bool
  {
    e => InDateRange(EncajeFecha(e), q.fechaInicio, q.fechaFin)
  }

  function EncajeSelector(q: EncajesQuery): Encaje -> bool
  {
    e => EncajeSelected(e, q)
  }

  /** The route: without a configured database it answers 500 before any query;
      otherwise the user's records (all of them without a user), newest first, within
      the date range. */
  function GetEncajes(dbConfigured: bool, all: seq<Encaje>, q: EncajesQuery): Response<seq<Encaje>>
  {
    if !dbConfigured then Error(500, "Error de configuración del servidor")
    else Ok(Filter(Filter(all, EncajeUsuarioStep(q)), EncajeFechaStep(q)))
  }

  /** The route answers 500 exactly when the database is missing, whatever was asked;
      otherwise it returns the records meeting both conditions, in the database's
      order. */
  lemma GetEncajesSpec(dbConfigured: bool, all: seq<Encaje>, q: EncajesQuery, key: Encaje -> int)
    ensures GetEncajes(dbConfigured, all, q).Error? <==> !dbConfigured
    ensures !dbConfigured ==> GetEncajes(dbConfigured, all, q).status == 500
    ensures dbConfigured ==> GetEncajes(dbConfigured, all, q).body == Filter(all, EncajeSelector(q))
    ensures dbConfigured ==> IsSubseq(GetEncajes(dbConfigured, all, q).body, all)
    ensures dbConfigured && SortedDesc(all, key) ==> SortedDesc(GetEncajes(dbConfigured, all, q).body, key)
  {
    FilterFilter(all, EncajeUsuarioStep(q), EncajeFechaStep(q), EncajeSelector(q));
    FilterIsSubseq(all, EncajeSelector(q));
    if SortedDesc(all, key) {
      FilterKeepsSorted(all, EncajeSelector(q), key);
    }
  }
}
