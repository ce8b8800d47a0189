/** One row of the dashboard's activity feed: the relative time caption, the payment
    form tag of a payment, the difference badge of a cash count and the client line. */
module ActividadItem {
  import opened Wrappers
  import opened Text
  import opened Dates
  import opened Records
  import Arqueo
  import opened Actividades

  /** How long ago an activity happened, as the caption puts it. */
  datatype Ago = JustNow | MinutesAgo(minutes: nat) | HoursAgo(hours: nat) | Yesterday | DaysAgo(days: nat) | OnDate

  /** `formatFecha`'s cascade over whole minutes, hours and days, each the floor of the
      one before it; `diff` is the current instant minus the activity's, in ms. A date
      in the future counts as now. */
  function AgoOf(diff: int): Ago
  {
    var minutos := diff / 60000;
    var horas := minutos / 60;
    var dias := horas / 24;
    if minutos < 1 then JustNow
    else if minutos < 60 then MinutesAgo(minutos)
    else if horas < 24 then HoursAgo(horas)
    else if dias == 1 then Yesterday
    else if dias < 7 then DaysAgo(dias)
    else OnDate
  }

  /** The caption; `localDate` is the browser's short date for the activity, used from
      a week back. */
  function Caption(a: Ago, localDate: string): string
  {
    match a
    case JustNow => "Ahora"
    case MinutesAgo(m) => "Hace " + NatStr(m) + " min"
    case HoursAgo(h) => "Hace " + NatStr(h) + "h"
    case Yesterday => "Ayer"
    case DaysAgo(d) => "Hace " + NatStr(d) + " días"
    case OnDate => localDate
  }

  function FormatFecha(now: int, fecha: int, localDate: string): string
  {
    Caption(AgoOf(now - fecha), localDate)
  }

  /** Whole hours counted from whole minutes are whole hours of the elapsed time, and
      likewise days from hours. */
  lemma FloorOfFloor(x: int)
    ensures (x / 60000) / 60 == x / HOUR_MS
    ensures ((x / 60000) / 60) / 24 == x / DAY_MS
  {
  }

  /** Each caption covers one span of elapsed time, counted in whole units of the span:
      under a minute (or in the future) is "Ahora", then minutes up to an hour, hours up
      to a day, "Ayer" for the whole second day, days up to a week, and the date after. */
  lemma AgoSpans(diff: int)
    ensures AgoOf(diff) == JustNow <==> diff < MINUTE_MS
    ensures AgoOf(diff).MinutesAgo? <==> MINUTE_MS <= diff < HOUR_MS
    ensures AgoOf(diff).MinutesAgo? ==> AgoOf(diff).minutes == diff / MINUTE_MS && 1 <= AgoOf(diff).minutes <= 59
    ensures AgoOf(diff).HoursAgo? <==> HOUR_MS <= diff < DAY_MS
    ensures AgoOf(diff).HoursAgo? ==> AgoOf(diff).hours == diff / HOUR_MS && 1 <= AgoOf(diff).hours <= 23
    ensures AgoOf(diff) == Yesterday <==> DAY_MS <= diff < 2 * DAY_MS
    ensures AgoOf(diff).DaysAgo? <==> 2 * DAY_MS <= diff < 7 * DAY_MS
    ensures AgoOf(diff).DaysAgo? ==> AgoOf(diff).days == diff / DAY_MS && 2 <= AgoOf(diff).days <= 6
    ensures AgoOf(diff) == OnDate <==> 7 * DAY_MS <= diff
  {
    FloorOfFloor(diff);
  }

  /** The number in a "Hace …" caption reads back as the count it was written from. */
  lemma CaptionReadsBack(a: Ago, localDate: string)
    ensures a.MinutesAgo? ==> ReadNat(Caption(a, localDate)[5..]) == (a.minutes, " min")
    ensures a.HoursAgo? ==> ReadNat(Caption(a, localDate)[5..]) == (a.hours, "h")
    ensures a.DaysAgo? ==> ReadNat(Caption(a, localDate)[5..]) == (a.days, " días")
    ensures a.MinutesAgo? || a.HoursAgo? || a.DaysAgo? ==> Caption(a, localDate)[..5] == "Hace "
  {
    match a
    case MinutesAgo(m) => HaceReadsBack(m, " min");
    case HoursAgo(h) => HaceReadsBack(h, "h");
    case DaysAgo(d) => HaceReadsBack(d, " días");
    case _ =>
  }

  lemma HaceReadsBack(n: nat, unit: string)
    requires |unit| > 0 && !IsDigit(unit[0])
    ensures ("Hace " + NatStr(n) + unit)[..5] == "Hace "
    ensures ReadNat(("Hace " + NatStr(n) + unit)[5..]) == (n, unit)
  {
    assert ("Hace " + NatStr(n) + unit)[5..] == NatStr(n) + unit;
    ReadNatStr(n, unit);
  }

  /** The difference badge of a cash count. */
  datatype Badge = NoBadge | ExactoBadge | OffBadge(surplus: bool, amount: nat)

  /** No badge without a difference; "Exacto" at zero; otherwise "Sobrante" or
      "Faltante" with the absolute amount. */
  function DiferenciaBadge(diferencia: Option<int>): Badge
  {
    match diferencia
    case None => NoBadge
    case Some(d) =>
      if d == 0 then ExactoBadge
      else if d > 0 then OffBadge(true, d)
      else OffBadge(false, -d)
  }

  function BadgeLabel(b: Badge): string
  {
    match b
    case NoBadge => ""
    case ExactoBadge => "Exacto"
    case OffBadge(surplus, _) => if surplus then "Sobrante" else "Faltante"
  }

  /** The badge says what the cash-count editor says of the same difference, and its
      sign and amount give the difference back. */
  lemma BadgeAgreesWithEditor(d: int)
    ensures BadgeLabel(DiferenciaBadge(Some(d))) == Arqueo.DiferenciaLabel(d)
    ensures DiferenciaBadge(Some(d)).OffBadge? <==> d != 0
    ensures DiferenciaBadge(Some(d)).OffBadge? ==>
      var b := DiferenciaBadge(Some(d));
      d == (if b.surplus then b.amount as int else -(b.amount as int))
    ensures DiferenciaBadge(None) == NoBadge
  {
  }

  /** `text && …`: a tag or a line shows only for a present, non-empty text. */
  function Shown(text: Option<string>): (r: Option<string>)
    ensures r.Some? <==> text.Some? && text.value != ""
    ensures r.Some? ==> r == text
  {
    if text.Some? && text.value != "" then text else None
  }

  /** What a row shows besides the icon, the user and the amount. */
  datatype Row = Row(tipo: Tipo, usuario: JsValue, tag: Option<string>, badge: Badge,
                     cliente: Option<string>, caption: string, monto: int)

  /** The row for an activity: a payment shows its payment form as a tag and never a
      badge; a cash count shows the badge and never a tag. */
  function RowOf(a: Actividad, now: int, localDate: string): Row
  {
    Row(a.tipo, a.usuario,
        if a.tipo == CobroTipo then Shown(a.formaPago) else None,
        if a.tipo == EncajeTipo then DiferenciaBadge(a.diferencia) else NoBadge,
        Shown(a.clienteNombre), FormatFecha(now, a.fecha, localDate), a.monto)
  }

  /** For an activity the feed produced, every payment row has its payment-form tag
      and client line (the route fills in both) and no badge; every cash-count row has
      its badge and neither a tag nor a client line. */
  lemma FeedRows(c: Cobro, e: Encaje, now: int, later: int, localDate: string)
    requires FromCobro(c, now).Some? && FromEncaje(e, now).Some?
    ensures var r := RowOf(FromCobro(c, now).value, later, localDate);
      && r.tag == Some(if c.formaPago == "" then "efectivo" else c.formaPago)
      && r.cliente == Some(if c.clienteNombre == "" then "Cliente desconocido" else c.clienteNombre)
      && r.badge == NoBadge
    ensures var r := RowOf(FromEncaje(e, now).value, later, localDate);
      && r.tag.None? && r.cliente.None?
      && r.badge == DiferenciaBadge(Some(e.diferencia)) && r.badge != NoBadge
  {
    FromCobroDefaults(c, now);
    FromEncajeDefaults(e, now);
  }
}
