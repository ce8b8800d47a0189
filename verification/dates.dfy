/** JavaScript dates as the dashboard uses them: milliseconds since the epoch, with
    `Invalid Date` (a NaN time value) as `None`. */
module Dates {
  import opened Wrappers

  const MINUTE_MS: int := 60000
  const HOUR_MS: int := 3600000
  const DAY_MS: int := 86400000

  /** A `Date` object: `Some(ms)` or `None` for `Invalid Date`. */
  type JsDate = Option<int>

  /** `a <= b` on two `Date`s; any comparison with `Invalid Date` is false. */
  predicate AtMost(a: JsDate, b: JsDate)
  {
    a.Some? && b.Some? && a.value <= b.value
  }

  /** `a < b` on two `Date`s; any comparison with `Invalid Date` is false. */
  predicate Before(a: JsDate, b: JsDate)
  {
    a.Some? && b.Some? && a.value < b.value
  }

  /** The shapes a stored `fecha` arrives in: absent, `null`, another falsy value
      (`false`, `0`, `""`) with what `new Date(value)` makes of it, a database timestamp
      object with `toDate()`, a serialised timestamp object carrying `_seconds`, or any
      other truthy value (a string, a number) with what `new Date(value)` makes of it. */
  datatype DateField =
    | Missing
    | Null
    | Falsy(falsyParsed: JsDate)
    | Timestamp(millis: int)
    | SecondsObject(seconds: int)
    | Plain(parsed: JsDate)

  /** `!date`: the value is `undefined`, `null` or another falsy value. */
  predicate IsFalsy(d: DateField)
  {
    d.Missing? || d.Null? || d.Falsy?
  }

  /** `date?.x` stops at `undefined` and `null` only. */
  predicate IsNullish(d: DateField)
  {
    d.Missing? || d.Null?
  }

  /** The normalisation both `normFecha` and `normalizarFecha` perform; they differ only
      in what a falsy date becomes (`fallback`). An object whose `_seconds` is 0 is
      not caught by the `_seconds` test and becomes `new Date(object)`, an Invalid Date. */
  function Normalize(d: DateField, fallback: int): (r: JsDate)
    ensures IsFalsy(d) ==> r == Some(fallback)
    ensures d.Timestamp? ==> r == Some(d.millis)
    ensures d.SecondsObject? && d.seconds != 0 ==> r == Some(d.seconds * 1000)
    ensures d.SecondsObject? && d.seconds == 0 ==> r == None
    ensures d.Plain? ==> r == d.parsed
  {
    match d
    case Timestamp(ms) => Some(ms)
    case SecondsObject(s) => if s != 0 then Some(s * 1000) else None
    case Plain(p) => p
    case _ => Some(fallback)
  }

  /** `new Date(x?.toDate?.() || x)` as the API routes read a stored date, and as the
      pages read it back from their JSON: a timestamp converts, `null` is the epoch, an
      absent date or a bare `_seconds` object is an Invalid Date, and any other value is
      parsed. */
  function AsJsDate(d: DateField): (r: JsDate)
    ensures d.Timestamp? ==> r == Some(d.millis)
    ensures d.Plain? ==> r == d.parsed
    ensures d.Falsy? ==> r == d.falsyParsed
    ensures d.Null? ==> r == Some(0)
    ensures d.Missing? || d.SecondsObject? ==> r == None
  {
    match d
    case Timestamp(ms) => Some(ms)
    case Plain(p) => p
    case Falsy(p) => p
    case Null => Some(0)
    case _ => None
  }

  /** How the two readings relate. A non-zero `_seconds` object normalises to the
      timestamp of the same instant; a falsy date always normalises to the fallback
      whatever the routes would parse it as; and the two readings differ only on a
      falsy date or a `_seconds` object, always on an absent date or a non-zero
      `_seconds` object. */
  lemma NormalizeVersusAsJsDate(d: DateField, fallback: int)
    ensures d.SecondsObject? && d.seconds != 0 ==>
      Normalize(d, fallback) == Normalize(Timestamp(d.seconds * 1000), fallback)
    ensures IsFalsy(d) ==> forall p :: Normalize(Falsy(p), fallback) == Normalize(d, fallback)
    ensures Normalize(d, fallback) != AsJsDate(d) ==> IsFalsy(d) || d.SecondsObject?
    ensures d.Missing? || (d.SecondsObject? && d.seconds != 0) ==> Normalize(d, fallback) != AsJsDate(d)
    ensures d.Null? ==> (Normalize(d, fallback) == AsJsDate(d) <==> fallback == 0)
  {
  }

  /** `new Date("YYYY-MM-DD")` for the calendar day `day` (days since 1970-01-01): a
      date-only ISO string is read as UTC midnight. */
  function UtcMidnight(day: int): int
  {
    day * DAY_MS
  }

  /** `new Date(year, month - 1, day, 0, 0, 0, 0)`: local midnight of `day`, for a
      process whose local clock runs `offsetMs` ahead of UTC. */
  function LocalMidnight(day: int, offsetMs: int): int
  {
    day * DAY_MS - offsetMs
  }
}
