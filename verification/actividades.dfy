/** `GET /api/dashboard/actividades`: the recent-activity feed. It reads the newest
    payments and the newest cash counts (at most `limit` of each), turns each into an
    activity with default values for missing fields, sorts them all newest first and
    keeps the first `limit`. The two query results are the inputs, newest first. */
module Actividades {
  import opened Wrappers
  import opened Seqs
  import opened Dates
  import opened Records

  /** The feed length used when the request has no `limit`. */
  const DEFAULT_LIMIT: int := 20

  /** The `limit` query parameter: absent (or empty), or the value `parseInt` reads from
      it (`None` for NaN). */
  datatype LimitParam = NoLimit | LimitText(parsed: Option<int>)

  /** `parseInt(searchParams.get('limit') || '20')`. */
  function LimitCount(p: LimitParam): (n: Option<int>)
    ensures p.NoLimit? ==> n == Some(DEFAULT_LIMIT)
    ensures p.LimitText? ==> n == p.parsed
  {
    match p
    case NoLimit => Some(DEFAULT_LIMIT)
    case LimitText(v) => v
  }

  datatype Tipo = CobroTipo | EncajeTipo

  /** One activity as the route returns it. Payments carry a client and a payment form,
      cash counts a difference. */
  datatype Actividad = Actividad(
    id: string,
    tipo: Tipo,
    usuario: JsValue,
    monto: int,
    clienteNombre: Option<string>,
    fecha: int,
    formaPago: Option<string>,
    diferencia: Option<int>)

  /** `text || fallback` on a string that may be missing. */
  function OrDefault(text: Option<string>, fallback: string): string
  {
    if text.Some? && text.value != "" then text.value else fallback
  }

  /** `data.fecha?.toDate() || new Date()`: a timestamp converts and an absent or `null`
      date becomes the current instant; a date stored in any other shape, a falsy one
      included, has no `toDate` to call, so the call throws and the whole request fails. */
  function ActivityDate(d: DateField, now: int): (r: Option<int>)
    ensures d.Timestamp? ==> r == Some(d.millis)
    ensures IsNullish(d) ==> r == Some(now)
    ensures r.None? <==> d.Plain? || d.Falsy? || d.SecondsObject?
  {
    match d
    case Timestamp(ms) => Some(ms)
    case Missing => Some(now)
    case Null => Some(now)
    case _ => None
  }

  /** The activity for one payment, or `None` when its date makes the route throw. */
  function FromCobro(c: Cobro, now: int): Option<Actividad>
  {
    match ActivityDate(c.fecha, now)
    case None => None
    case Some(t) =>
      Some(Actividad(c.id, CobroTipo, if Truthy(c.createdBy) then c.createdBy else Str("Desconocido"), c.monto,
                     Some(OrDefault(Some(c.clienteNombre), "Cliente desconocido")), t,
                     Some(OrDefault(Some(c.formaPago), "efectivo")), None))
  }

  /** The activity for one cash count: the amount shown is the declared total. */
  function FromEncaje(e: Encaje, now: int): Option<Actividad>
  {
    match ActivityDate(e.fecha, now)
    case None => None
    case Some(t) =>
      Some(Actividad(e.id, EncajeTipo, Str(OrDefault(Some(e.usuarioNombre), "Desconocido")), e.totalDeclarado,
                     None, t, None, Some(e.diferencia)))
  }

  /** The defaults a payment's activity falls back to, and what it keeps. */
  lemma FromCobroDefaults(c: Cobro, now: int)
    ensures FromCobro(c, now).Some? <==> c.fecha.Timestamp? || IsNullish(c.fecha)
    ensures FromCobro(c, now).Some? ==>
      var a := FromCobro(c, now).value;
      && a.tipo == CobroTipo && a.id == c.id && a.monto == c.monto && a.diferencia.None?
      && (c.createdBy in {Undefined, JsValue.Null, Num(0), Str(""), Bool(false)} ==> a.usuario == Str("Desconocido"))
      && (Truthy(c.createdBy) ==> a.usuario == c.createdBy)
      && a.clienteNombre == Some(if c.clienteNombre == "" then "Cliente desconocido" else c.clienteNombre)
      && a.formaPago == Some(if c.formaPago == "" then "efectivo" else c.formaPago)
      && a.fecha == (if c.fecha.Timestamp? then c.fecha.millis else now)
  {
  }

  /** The defaults a cash count's activity falls back to: no client, no payment form, the
      declared total as the amount and the difference as stored. */
  lemma FromEncajeDefaults(e: Encaje, now: int)
    ensures FromEncaje(e, now).Some? <==> e.fecha.Timestamp? || IsNullish(e.fecha)
    ensures FromEncaje(e, now).Some? ==>
      var a := FromEncaje(e, now).value;
      && a.tipo == EncajeTipo && a.id == e.id && a.monto == e.totalDeclarado
      && a.usuario == Str(if e.usuarioNombre == "" then "Desconocido" else e.usuarioNombre)
      && a.clienteNombre.None? && a.formaPago.None? && a.diferencia == Some(e.diferencia)
      && a.fecha == (if e.fecha.Timestamp? then e.fecha.millis else now)
  {
  }

  /** The activities of a list of payments, or `None` as soon as one of them throws. */
  function CobroActivities(cs: seq<Cobro>, now: int): (r: Option<seq<Actividad>>)
    ensures r.Some? <==> forall i :: 0 <= i < |cs| ==> FromCobro(cs[i], now).Some?
    ensures r.Some? ==> |r.value| == |cs| && forall i :: 0 <= i < |cs| ==> r.value[i] == FromCobro(cs[i], now).value
    decreases |cs|
  {
    if |cs| == 0 then Some([])
    else
      var rest := CobroActivities(cs[1..], now);
      assert forall i :: 1 <= i < |cs| ==> cs[i] == cs[1..][i - 1];
      match FromCobro(cs[0], now)
      case None => None
      case Some(a) => if rest.None? then None else Some([a] + rest.value)
  }

  function EncajeActivities(es: seq<Encaje>, now: int): (r: Option<seq<Actividad>>)
    ensures r.Some? <==> forall i :: 0 <= i < |es| ==> FromEncaje(es[i], now).Some?
    ensures r.Some? ==> |r.value| == |es| && forall i :: 0 <= i < |es| ==> r.value[i] == FromEncaje(es[i], now).value
    decreases |es|
  {
    if |es| == 0 then Some([])
    else
      var rest := EncajeActivities(es[1..], now);
      assert forall i :: 1 <= i < |es| ==> es[i] == es[1..][i - 1];
      match FromEncaje(es[0], now)
      case None => None
      case Some(a) => if rest.None? then None else Some([a] + rest.value)
  }

  const Fecha: Actividad -> int := (a: Actividad) => a.fecha

  /** What the route answers: the feed, or the 500 error of its `catch`. */
  datatype Response = Feed(items: seq<Actividad>) | ServerError(status: int, error: string)

  /** The route, from the newest-first payments and cash counts and the current instant.
      A limit that is not a positive number is refused with the route's error. */
  function GetActividades(p: LimitParam, cobros: seq<Cobro>, encajes: seq<Encaje>, now: int): Response
  {
    var n := LimitCount(p);
    if n.None? || n.value <= 0 then ServerError(500, "Error al obtener actividades")
    else
      var fromCobros := CobroActivities(Take(cobros, n.value), now);
      var fromEncajes := EncajeActivities(Take(encajes, n.value), now);
      if fromCobros.None? || fromEncajes.None? then ServerError(500, "Error al obtener actividades")
      else Feed(Take(SortDesc(fromCobros.value + fromEncajes.value, Fecha), n.value))
  }

  /** An activity in the merged list was built from one of the first `n` payments or
      one of the first `n` cash counts. */
  lemma {:induction false} MergedProvenance(cobros: seq<Cobro>, encajes: seq<Encaje>, n: int, now: int, a: Actividad)
    requires CobroActivities(Take(cobros, n), now).Some? && EncajeActivities(Take(encajes, n), now).Some?
    requires a in CobroActivities(Take(cobros, n), now).value + EncajeActivities(Take(encajes, n), now).value
    ensures (exists k :: 0 <= k < |cobros| && k < n && FromCobro(cobros[k], now) == Some(a))
         || (exists k :: 0 <= k < |encajes| && k < n && FromEncaje(encajes[k], now) == Some(a))
  {
    var cs := Take(cobros, n);
    var es := Take(encajes, n);
    var fc := CobroActivities(cs, now).value;
    var fe := EncajeActivities(es, now).value;
    var all := fc + fe;
    var j :| 0 <= j < |all| && all[j] == a;
    if j < |fc| {
      assert fc[j] == FromCobro(cs[j], now).value && cs[j] == cobros[j];
    } else {
      var k := j - |fc|;
      assert fe[k] == FromEncaje(es[k], now).value && es[k] == encajes[k];
    }
  }

  /** The feed is the newest `limit` activities: exactly `limit` of them, or all when
      there are fewer, newest first, none of them twice and none that the two lists did
      not produce, and no activity left out is newer than one shown. Activities of the
      same instant keep the merged order, payments before cash counts: those shown are
      the first ones of that instant. */
  lemma GetActividadesSpec(p: LimitParam, cobros: seq<Cobro>, encajes: seq<Encaje>, now: int)
    requires GetActividades(p, cobros, encajes, now).Feed?
    ensures var n := LimitCount(p).value;
      var items := GetActividades(p, cobros, encajes, now).items;
      var all := CobroActivities(Take(cobros, n), now).value + EncajeActivities(Take(encajes, n), now).value;
      && |items| == (if |all| < n then |all| else n)
      && SortedDesc(items, Fecha)
      && multiset(items) <= multiset(all)
      && (|all| <= n ==> multiset(items) == multiset(all))
      && (forall e, t :: e in all && e !in items && t in items ==> t.fecha >= e.fecha)
      && (forall t :: Filter(items, WithKey(Fecha, t)) <= Filter(all, WithKey(Fecha, t)))
  {
    var n := LimitCount(p).value;
    var all := CobroActivities(Take(cobros, n), now).value + EncajeActivities(Take(encajes, n), now).value;
    var items := Take(SortDesc(all, Fecha), n);
    assert GetActividades(p, cobros, encajes, now).items == items;
    assert && |items| == (if |all| < n then |all| else n)
           && SortedDesc(items, Fecha)
           && multiset(items) <= multiset(all)
           && (|all| <= n ==> multiset(items) == multiset(all)) by {
      TopByKey(all, Fecha, n);
    }
    forall e, t | e in all && e !in items && t in items ensures t.fecha >= e.fecha {
      LeftOutIsOlder(all, Fecha, n, e, t);
    }
    assert forall t :: Filter(items, WithKey(Fecha, t)) <= Filter(all, WithKey(Fecha, t)) by {
      forall t ensures Filter(items, WithKey(Fecha, t)) <= Filter(all, WithKey(Fecha, t)) {
        TopStable(all, Fecha, n, t);
      }
    }
  }

  /** Every activity in the feed was built from one of the first `limit` payments or
      one of the first `limit` cash counts. */
  lemma GetActividadesFrom(p: LimitParam, cobros: seq<Cobro>, encajes: seq<Encaje>, now: int, i: int)
    requires GetActividades(p, cobros, encajes, now).Feed?
    requires 0 <= i < |GetActividades(p, cobros, encajes, now).items|
    ensures var n := LimitCount(p).value;
      var a := GetActividades(p, cobros, encajes, now).items[i];
      || (exists k :: 0 <= k < |cobros| && k < n && FromCobro(cobros[k], now) == Some(a))
      || (exists k :: 0 <= k < |encajes| && k < n && FromEncaje(encajes[k], now) == Some(a))
  {
    var n := LimitCount(p).value;
    var items := GetActividades(p, cobros, encajes, now).items;
    GetActividadesSpec(p, cobros, encajes, now);
    assert items[i] in multiset(items);
    MergedProvenance(cobros, encajes, n, now, items[i]);
  }

  /** The route fails exactly when the limit is not a positive number, or when one of
      the records it reads holds its date in a shape other than a timestamp, an absent
      value or `null`; without a
      `limit`, twenty of each are read. */
  lemma GetActividadesFails(p: LimitParam, cobros: seq<Cobro>, encajes: seq<Encaje>, now: int)
    ensures var n := LimitCount(p);
      GetActividades(p, cobros, encajes, now).ServerError? <==>
        || n.None? || n.value <= 0
        || (exists k :: 0 <= k < |cobros| && k < n.value && !(cobros[k].fecha.Timestamp? || IsNullish(cobros[k].fecha)))
        || (exists k :: 0 <= k < |encajes| && k < n.value && !(encajes[k].fecha.Timestamp? || IsNullish(encajes[k].fecha)))
    ensures GetActividades(p, cobros, encajes, now).ServerError? ==>
      GetActividades(p, cobros, encajes, now) == ServerError(500, "Error al obtener actividades")
    ensures p.NoLimit? ==> LimitCount(p) == Some(20)
  {
    var n := LimitCount(p);
    if n.Some? && n.value > 0 {
      var cs := Take(cobros, n.value);
      var es := Take(encajes, n.value);
      forall k | 0 <= k < |cs| ensures FromCobro(cs[k], now).Some? <==> cobros[k].fecha.Timestamp? || IsNullish(cobros[k].fecha) {
        FromCobroDefaults(cs[k], now);
      }
      forall k | 0 <= k < |es| ensures FromEncaje(es[k], now).Some? <==> encajes[k].fecha.Timestamp? || IsNullish(encajes[k].fecha) {
        FromEncajeDefaults(es[k], now);
      }
    }
  }
}
