/** The tracking map's text output: the session duration, the stop duration and
    total-stopped texts, and the GPX export of a session's points. */
module TrackFormat {
  import opened Wrappers
  import opened Seqs
  import opened Text
  import opened Dates
  import opened Trajectory

  /** JavaScript's `%` with a positive divisor: the remainder of truncating division,
      which carries the sign of `a`. */
  function JsRem(a: int, b: int): (r: int)
    requires b > 0
    ensures -b < r < b
    ensures a >= 0 ==> r == a % b
    ensures a < 0 ==> r <= 0 && (-a) % b == -r
  {
    if a >= 0 then a % b else -((-a) % b)
  }

  /** `${h}h ${m}m`, the hours-and-minutes text both duration formatters use. */
  function HoursMinutes(h: int, m: int): string
  {
    IntStr(h) + "h " + IntStr(m) + "m"
  }

  /** `formatDuration(start, end)`. `end` is `None` when the session has no end time (a
      falsy `end`), and `Some(d)` with the parsed `Date` otherwise. An Invalid Date on
      either side makes every step NaN, so the text is "NaNm". */
  function FormatDuration(start: JsDate, end: Option<JsDate>): string
  {
    match end
    case None => "En progreso"
    case Some(e) =>
      if start.None? || e.None? then "NaNm"
      else
        var minutes := (e.value - start.value) / MINUTE_MS;
        var hours := minutes / 60;
        var mins := JsRem(minutes, 60);
        if hours > 0 then HoursMinutes(hours, mins) else IntStr(mins) + "m"
  }

  /** The stop duration text: "Hh Mm" from an hour on, "N min" below it. The panel's
      total stopped time is printed the same way. */
  function StopDurationText(minutes: int): string
  {
    if minutes >= 60 then HoursMinutes(minutes / 60, minutes % 60) else IntStr(minutes) + " min"
  }

  /** Reads a duration text back into minutes: either "Hh Mm" with M below 60, or a
      single number followed by `unit`. */
  function ReadDuration(s: string, unit: string): Option<nat>
  {
    if DigitPrefix(s) == 0 then None
    else
      var a := ReadNat(s);
      if a.1 == unit then Some(a.0)
      else if |a.1| >= 2 && a.1[..2] == "h " then
        match ReadMinutes(a.1[2..])
        case Some(b) => Some(a.0 * 60 + b)
        case None => None
      else None
  }

  /** The "Mm" part after the hours, with M below 60. */
  function ReadMinutes(s: string): Option<nat>
  {
    if DigitPrefix(s) == 0 then None
    else
      var b := ReadNat(s);
      if b.1 == "m" && b.0 < 60 then Some(b.0) else None
  }

  lemma ReadNumberThen(n: nat, rest: string)
    requires |rest| == 0 || !IsDigit(rest[0])
    ensures ReadNat(NatStr(n) + rest) == (n, rest)
    ensures DigitPrefix(NatStr(n) + rest) > 0
  {
    ReadNatStr(n, rest);
    DigitPrefixOf(NatStr(n), rest);
  }

  lemma ReadHoursMinutes(h: nat, m: nat, unit: string)
    requires m < 60
    requires |unit| == 0 || unit[0] != 'h'
    ensures ReadDuration(HoursMinutes(h, m), unit) == Some(h * 60 + m)
  {
    var tail := "h " + NatStr(m) + "m";
    HoursMinutesParts(h, m);
    assert tail[0] == 'h';
    ReadNumberThen(h, tail);
    ReadMinutesOf(m);
    assert tail[2..] == NatStr(m) + "m";
    ReadDurationHoursStep(HoursMinutes(h, m), unit, h, tail, m);
  }

  lemma HoursMinutesParts(h: nat, m: nat)
    ensures HoursMinutes(h, m) == NatStr(h) + ("h " + NatStr(m) + "m")
  {
    assert IntStr(h) == NatStr(h) && IntStr(m) == NatStr(m);
  }

  lemma ReadMinutesOf(m: nat)
    requires m < 60
    ensures ReadMinutes(NatStr(m) + "m") == Some(m)
  {
    ReadNumberThen(m, "m");
  }

  lemma ReadDurationHoursStep(s: string, unit: string, a: nat, rest: string, b: nat)
    requires DigitPrefix(s) > 0 && ReadNat(s) == (a, rest)
    requires rest != unit && |rest| >= 2 && rest[..2] == "h "
    requires ReadMinutes(rest[2..]) == Some(b)
    ensures ReadDuration(s, unit) == Some(a * 60 + b)
  {
  }

  lemma ReadPlain(n: nat, unit: string)
    requires |unit| > 0 && !IsDigit(unit[0])
    ensures ReadDuration(NatStr(n) + unit, unit) == Some(n)
  {
    ReadNumberThen(n, unit);
  }

  lemma NoHourMark(s: string)
    requires AllDigits(s)
    ensures 'h' !in s
  {
    forall i | 0 <= i < |s| ensures s[i] != 'h' {
      assert IsDigit(s[i]);
    }
  }

  /** For a session with both dates valid and ending no earlier than it started, the
      text reads back as the whole minutes elapsed. */
  lemma FormatDurationReadsBack(start: int, end: int)
    requires start <= end
    ensures ReadDuration(FormatDuration(Some(start), Some(Some(end))), "m") == Some((end - start) / MINUTE_MS)
  {
    var minutes := (end - start) / MINUTE_MS;
    ElapsedText(start, end);
    ReadsBackAs(minutes, "m");
  }

  /** Either form of a minute count reads back as that count. */
  lemma ReadsBackAs(minutes: nat, unit: string)
    requires |unit| > 0 && !IsDigit(unit[0]) && unit[0] != 'h'
    ensures minutes / 60 > 0 ==> ReadDuration(HoursMinutes(minutes / 60, minutes % 60), unit) == Some(minutes)
    ensures ReadDuration(NatStr(minutes) + unit, unit) == Some(minutes)
  {
    var h, m := minutes / 60, minutes % 60;
    assert h * 60 + m == minutes;
    ReadHoursMinutes(h, m, unit);
    ReadPlain(minutes, unit);
  }

  lemma ElapsedText(start: int, end: int)
    requires start <= end
    ensures var minutes := (end - start) / MINUTE_MS;
      FormatDuration(Some(start), Some(Some(end)))
        == if minutes / 60 > 0 then HoursMinutes(minutes / 60, minutes % 60) else NatStr(minutes) + "m"
  {
  }

  /** The hours part appears exactly when at least an hour elapsed; an end before the
      start never shows one, since its hour count is not positive. */
  lemma FormatDurationHoursIff(start: int, end: int)
    ensures var r := FormatDuration(Some(start), Some(Some(end)));
      'h' in r <==> end - start >= 60 * MINUTE_MS
  {
    var r := FormatDuration(Some(start), Some(Some(end)));
    var minutes := (end - start) / MINUTE_MS;
    var mins := JsRem(minutes, 60);
    if minutes / 60 > 0 {
      assert r[|IntStr(minutes / 60)|] == 'h';
    } else {
      var digits := if mins < 0 then NatStr(-mins) else NatStr(mins);
      NoHourMark(digits);
      assert r == (if mins < 0 then "-" else "") + digits + "m";
    }
  }

  /** The session duration without an end time is the in-progress marker, and an Invalid
      Date on either side gives the NaN text. */
  lemma FormatDurationEdges(start: JsDate, end: Option<JsDate>)
    ensures end.None? ==> FormatDuration(start, end) == "En progreso"
    ensures end.Some? && (start.None? || end.value.None?) ==> FormatDuration(start, end) == "NaNm"
  {
  }

  /** A stop duration reads back as its minute count, and the hours form is used
      exactly from 60 minutes on. */
  lemma StopDurationReadsBack(minutes: nat)
    ensures ReadDuration(StopDurationText(minutes), " min") == Some(minutes)
    ensures 'h' in StopDurationText(minutes) <==> minutes >= 60
  {
    ReadsBackAs(minutes, " min");
    StopDurationHours(minutes);
  }

  lemma StopDurationHours(minutes: nat)
    ensures 'h' in StopDurationText(minutes) <==> minutes >= 60
  {
    var r := StopDurationText(minutes);
    if minutes >= 60 {
      assert r[|IntStr(minutes / 60)|] == 'h';
    } else {
      NoHourMark(NatStr(minutes));
      assert r == NatStr(minutes) + " min";
    }
  }

  /** `stops.reduce((a, s) => a + s.durationMinutes, 0)`. */
  function TotalStopMinutes(stops: seq<StopPoint>): int
  {
    SumBy(stops, (s: StopPoint) => s.durationMinutes)
  }

  lemma {:induction false} TotalAtLeast(stops: seq<StopPoint>)
    requires forall k :: 0 <= k < |stops| ==> LastsFiveMinutes(stops[k])
    ensures TotalStopMinutes(stops) >= MIN_STOP_MINUTES * |stops|
    decreases |stops|
  {
    if |stops| > 0 {
      TotalAtLeast(stops[1..]);
    }
  }

  /** The total stopped time of a session is at least five minutes per detected stop. */
  lemma TotalStoppedAtLeast(dist: Distance, ps: seq<Point>)
    ensures TotalStopMinutes(DetectedStops(dist, ps)) >= MIN_STOP_MINUTES * |DetectedStops(dist, ps)|
  {
    DetectedStopsSpec(dist, ps);
    TotalAtLeast(DetectedStops(dist, ps));
  }

  /** An XML document as a tree; serialisation whitespace is not modelled. */
  datatype Xml =
    | Element(tag: string, attrs: seq<(string, string)>, children: seq<Xml>)
    | CharData(content: string)

  /** `<trkpt lat lon><time/><accuracy/></trkpt>` for one point. Number text comes from
      `num`, the template interpolation of a number; the time is the point's stored
      timestamp string, written as it was received, which `stamp` recovers from the
      instant the model keeps. */
  function TrkPt(p: Point, num: real -> string, stamp: int -> string): Xml
  {
    Element("trkpt", [("lat", num(p.latitude)), ("lon", num(p.longitude))],
      [Element("time", [], [CharData(stamp(p.time))]),
       Element("accuracy", [], [CharData(num(p.accuracy))])])
  }

  /** `generateGPX`: metadata (the export instant in ISO 8601 through `iso`, the session
      name) and one track with one segment holding a `trkpt` per point. */
  function Gpx(sessionId: string, now: int, ps: seq<Point>, num: real -> string, iso: int -> string, stamp: int -> string): Xml
  {
    Element("gpx", [("version", "1.1"), ("creator", "Sistema Cobranza")],
      [Element("metadata", [],
         [Element("time", [], [CharData(iso(now))]),
          Element("name", [], [CharData("Ruta " + sessionId)])]),
       Element("trk", [],
         [Element("name", [], [CharData("Ruta de cobranza")]),
          Element("trkseg", [], seq(|ps|, i requires 0 <= i < |ps| => TrkPt(ps[i], num, stamp)))])])
  }

  /** The first child element named `tag`. */
  function ChildNamed(children: seq<Xml>, tag: string): (r: Option<Xml>)
    ensures r.Some? ==> r.value in children && r.value.Element? && r.value.tag == tag
    ensures r.None? ==> forall i :: 0 <= i < |children| ==> !(children[i].Element? && children[i].tag == tag)
    decreases |children|
  {
    if |children| == 0 then None
    else if children[0].Element? && children[0].tag == tag then Some(children[0])
    else ChildNamed(children[1..], tag)
  }

  /** The value of the first attribute called `name`. */
  function AttrNamed(attrs: seq<(string, string)>, name: string): Option<string>
    decreases |attrs|
  {
    if |attrs| == 0 then None
    else if attrs[0].0 == name then Some(attrs[0].1)
    else AttrNamed(attrs[1..], name)
  }

  /** The text of the first child element named `tag`, when it holds a single text node. */
  function ChildText(x: Xml, tag: string): Option<string>
  {
    if !x.Element? then None
    else match ChildNamed(x.children, tag)
      case Some(Element(_, _, kids)) =>
        if |kids| == 1 && kids[0].CharData? then Some(kids[0].content) else None
      case _ => None
  }

  /** The fields a GPX reader takes from a track point. */
  datatype PointText = PointText(lat: string, lon: string, time: string, accuracy: string)

  function ReadTrkPt(x: Xml): Option<PointText>
  {
    if !x.Element? || x.tag != "trkpt" then None
    else
      match (AttrNamed(x.attrs, "lat"), AttrNamed(x.attrs, "lon"), ChildText(x, "time"), ChildText(x, "accuracy"))
      case (Some(la), Some(lo), Some(t), Some(a)) => Some(PointText(la, lo, t, a))
      case _ => None
  }

  /** The children of `gpx/trk/trkseg`, or nothing when the path is missing. */
  function TrackSegment(doc: Xml): seq<Xml>
  {
    if !doc.Element? || doc.tag != "gpx" then []
    else match ChildNamed(doc.children, "trk")
      case None => []
      case Some(trk) =>
        match ChildNamed(trk.children, "trkseg")
        case None => []
        case Some(seg) => seg.children
  }

  /** A GPX reader recovers every point, in order, with exactly its latitude, longitude,
      time and accuracy; the segment holds nothing but track points, and the document
      holds nothing but the metadata and the one track. */
  lemma GpxReadsBack(sessionId: string, now: int, ps: seq<Point>, num: real -> string, iso: int -> string, stamp: int -> string)
    ensures var doc := Gpx(sessionId, now, ps, num, iso, stamp);
      && |doc.children| == 2 && doc.children[0].tag == "metadata" && doc.children[1].tag == "trk"
      && ChildText(doc.children[0], "time") == Some(iso(now))
      && ChildText(doc.children[0], "name") == Some("Ruta " + sessionId)
      && |TrackSegment(doc)| == |ps|
      && forall k :: 0 <= k < |ps| ==>
           && TrackSegment(doc)[k].Element? && TrackSegment(doc)[k].tag == "trkpt"
           && ReadTrkPt(TrackSegment(doc)[k])
              == Some(PointText(num(ps[k].latitude), num(ps[k].longitude), stamp(ps[k].time), num(ps[k].accuracy)))
  {
    var doc := Gpx(sessionId, now, ps, num, iso, stamp);
    var trk := doc.children[1];
    assert "time" != "name" by { assert "time"[0] != "name"[0]; }
    assert ChildNamed(doc.children[0].children, "name") == Some(doc.children[0].children[1]);
    assert ChildNamed(doc.children, "trk") == Some(trk);
    assert ChildNamed(trk.children, "trkseg") == Some(trk.children[1]);
    forall k | 0 <= k < |ps|
      ensures ReadTrkPt(TrackSegment(doc)[k])
              == Some(PointText(num(ps[k].latitude), num(ps[k].longitude), stamp(ps[k].time), num(ps[k].accuracy)))
    {
      var x := TrkPt(ps[k], num, stamp);
      assert TrackSegment(doc)[k] == x;
      assert "lat" != "lon" by { assert "lat"[1] != "lon"[1]; }
      assert AttrNamed(x.attrs, "lat") == Some(num(ps[k].latitude));
      assert AttrNamed(x.attrs, "lon") == Some(num(ps[k].longitude));
      assert "time" != "accuracy" by { assert "time"[0] != "accuracy"[0]; }
      assert ChildNamed(x.children, "time") == Some(x.children[0]);
      assert ChildNamed(x.children, "accuracy") == Some(x.children[1]);
    }
  }
}
