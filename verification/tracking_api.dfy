/** `/api/tracking`: GET lists one collector's tracking sessions of one day (a day in
    UTC−5), newest first; POST only checks the body and acknowledges it. The stored
    sessions are an input sequence. */
module TrackingApi {
  import opened Wrappers
  import opened Seqs
  import opened Dates
  import Trajectory

  /** A stored time field: absent or `null` (where `?.` stops), a database timestamp,
      or any other value, whose missing `toDate` makes the call throw. */
  datatype StoredTime = NoTime | TimeStamp(millis: int) | NotTimestamp

  /** `x?.toDate().toISOString()` for a field that does not throw: the instant, or
      `undefined`. */
  function TimeOf(t: StoredTime): Option<int>
  {
    if t.TimeStamp? then Some(t.millis) else None
  }

  /** One stored tracking session. */
  datatype TrackingDoc = TrackingDoc(
    id: string,
    userId: string,
    sessionId: Option<string>,
    startTime: StoredTime,
    endTime: StoredTime,
    points: Option<seq<Trajectory.Point>>,
    totalDistance: Option<real>,
    createdAt: StoredTime)

  /** One session as GET returns it. */
  datatype Session = Session(
    id: string,
    sessionId: Option<string>,
    userId: string,
    startTime: int,
    endTime: Option<int>,
    points: seq<Trajectory.Point>,
    totalDistance: real,
    createdAt: Option<int>)

  /** The `date` parameter: absent or empty, or the calendar day (days since
      1970-01-01) that `YYYY-MM-DD` names, `None` when it names none. */
  datatype DateQuery = NoDate | DateText(day: Option<int>)

  datatype Response =
    | Sessions(data: seq<Session>, count: int)
    | Acknowledged(message: string)
    | Failure(status: int, error: string)

  /** Local midnight in UTC−5 is 05:00 UTC. */
  const START_OFFSET: int := 5 * HOUR_MS

  /** The day asked for: the given one, or today's UTC date at `now`. */
  function RequestedDay(date: DateQuery, now: int): Option<int>
  {
    match date
    case NoDate => Some(now / DAY_MS)
    case DateText(d) => d
  }

  /** `${date}T05:00:00.000Z` up to the next day's 04:59:59.999Z, with the server's
      clock on UTC. */
  function DayWindow(day: int): (int, int)
  {
    (UtcMidnight(day) + START_OFFSET, UtcMidnight(day + 1) + START_OFFSET - 1)
  }

  /** The window is one whole day of local time in UTC−5: an instant falls in it exactly
      when, moved five hours back, it falls on the requested UTC day; windows of
      consecutive days meet without overlap. */
  lemma DayWindowSpec(day: int, t: int)
    ensures DayWindow(day).1 - DayWindow(day).0 == DAY_MS - 1
    ensures DayWindow(day).0 % DAY_MS == START_OFFSET
    ensures DayWindow(day).0 <= t <= DayWindow(day).1 <==> (t - START_OFFSET) / DAY_MS == day
    ensures DayWindow(day + 1).0 == DayWindow(day).1 + 1
  {
    var lo := DayWindow(day).0;
    assert lo == day * DAY_MS + START_OFFSET;
    if lo <= t <= DayWindow(day).1 {
      DivIs(t - START_OFFSET, day);
    }
  }

  lemma DivIs(x: int, q: int)
    requires q * DAY_MS <= x < q * DAY_MS + DAY_MS
    ensures x / DAY_MS == q
  {
  }

  /** The query: the collector's sessions whose timestamp start lies in the window. */
  predicate Selected(doc: TrackingDoc, userId: string, window: (int, int))
  {
    doc.userId == userId && doc.startTime.TimeStamp? && window.0 <= doc.startTime.millis <= window.1
  }

  /** A stored session that makes the route throw: any of the user's sessions whose
      start is not a timestamp (every one of them is logged first), or a selected one
      whose end or creation time is not. */
  predicate Throws(doc: TrackingDoc, userId: string, window: (int, int))
  {
    || (doc.userId == userId && doc.startTime.NotTimestamp?)
    || (Selected(doc, userId, window) && (doc.endTime.NotTimestamp? || doc.createdAt.NotTimestamp?))
  }

  function SelectedBy(userId: string, window: (int, int)): TrackingDoc -> bool
  {
    doc => Selected(doc, userId, window)
  }

  function StartKey(doc: TrackingDoc): int
  {
    if doc.startTime.TimeStamp? then doc.startTime.millis else 0
  }

  /** A stored session as returned: no points means an empty list, no distance means 0.
      Only sessions with a timestamp start are ever selected. */
  function ToSession(doc: TrackingDoc): (s: Session)
    ensures s.points == (if doc.points.Some? then doc.points.value else [])
    ensures s.totalDistance == (if doc.totalDistance.Some? then doc.totalDistance.value else 0.0)
    ensures s.id == doc.id && s.userId == doc.userId && s.sessionId == doc.sessionId
    ensures doc.startTime.TimeStamp? ==> s.startTime == doc.startTime.millis
    ensures s.endTime == TimeOf(doc.endTime) && s.createdAt == TimeOf(doc.createdAt)
  {
    Session(doc.id, doc.sessionId, doc.userId, StartKey(doc), TimeOf(doc.endTime),
            doc.points.GetOr([]), doc.totalDistance.GetOr(0.0), TimeOf(doc.createdAt))
  }

  function ToSessions(docs: seq<TrackingDoc>): seq<Session>
  {
    Map(docs, ToSession)
  }

  /** `GET /api/tracking?userId=…&date=…`. Without a `userId` it answers 400; a `date`
      that names no day, or a stored time that is not a timestamp where the route reads
      one, makes the route throw and answer 500. */
  function GetTracking(userId: Option<string>, date: DateQuery, now: int, docs: seq<TrackingDoc>): Response
  {
    if userId.None? || userId.value == "" then Failure(400, "userId es requerido")
    else
      var day := RequestedDay(date, now);
      if day.None? then Failure(500, "Error al obtener datos de tracking")
      else if exists i :: 0 <= i < |docs| && Throws(docs[i], userId.value, DayWindow(day.value)) then
        Failure(500, "Error al obtener datos de tracking")
      else
        var found := Filter(docs, SelectedBy(userId.value, DayWindow(day.value)));
        var sorted := SortDesc(found, StartKey);
        var data := ToSessions(sorted);
        Sessions(data, |data|)
  }

  /** The outcome of GET: 400 exactly without a user; 500 exactly for a date naming no
      day or for a stored session the route cannot read; otherwise the selected sessions,
      each once, newest start first, each the user's and starting inside the requested
      day's window, with `count` their number. */
  lemma GetTrackingSpec(userId: Option<string>, date: DateQuery, now: int, docs: seq<TrackingDoc>)
    ensures GetTracking(userId, date, now, docs).Failure? || GetTracking(userId, date, now, docs).Sessions?
    ensures GetTracking(userId, date, now, docs).Failure? && GetTracking(userId, date, now, docs).status == 400
      <==> userId.None? || userId.value == ""
    ensures RequestedDay(date, now).None? <==> date.DateText? && date.day.None?
    ensures GetTracking(userId, date, now, docs).Failure? && GetTracking(userId, date, now, docs).status == 500
      <==> userId.Some? && userId.value != "" &&
           (RequestedDay(date, now).None? ||
            exists i :: 0 <= i < |docs| && Throws(docs[i], userId.value, DayWindow(RequestedDay(date, now).value)))
    ensures GetTracking(userId, date, now, docs).Sessions? ==>
      var r := GetTracking(userId, date, now, docs);
      var window := DayWindow(RequestedDay(date, now).value);
      var found := Filter(docs, SelectedBy(userId.value, window));
      && r.count == |r.data| == |found|
      && multiset(r.data) == multiset(ToSessions(found))
      && (forall i, j :: 0 <= i < j < |r.data| ==> r.data[i].startTime >= r.data[j].startTime)
      && (forall i :: 0 <= i < |r.data| ==>
            r.data[i].userId == userId.value && window.0 <= r.data[i].startTime <= window.1)
    ensures date.NoDate? && GetTracking(userId, date, now, docs).Sessions? ==> RequestedDay(date, now) == Some(now / DAY_MS)
  {
    if userId.Some? && userId.value != "" && RequestedDay(date, now).Some? {
      GetTrackingFound(userId.value, RequestedDay(date, now).value, date, now, docs);
    }
  }

  /** With a user and a day, the answer is either the 500 of an unreadable stored
      session or the selected sessions, sorted and converted. */
  lemma GetTrackingFound(userId: string, day: int, date: DateQuery, now: int, docs: seq<TrackingDoc>)
    requires userId != "" && RequestedDay(date, now) == Some(day)
    ensures var r := GetTracking(Some(userId), date, now, docs);
      var window := DayWindow(day);
      var found := Filter(docs, SelectedBy(userId, window));
      && (r.Failure? <==> exists i :: 0 <= i < |docs| && Throws(docs[i], userId, window))
      && (r.Failure? ==> r.status == 500)
      && (r.Sessions? ==>
           && r.count == |r.data| == |found|
           && multiset(r.data) == multiset(ToSessions(found))
           && (forall i, j :: 0 <= i < j < |r.data| ==> r.data[i].startTime >= r.data[j].startTime)
           && (forall i :: 0 <= i < |r.data| ==>
                 r.data[i].userId == userId && window.0 <= r.data[i].startTime <= window.1))
  {
    var window := DayWindow(day);
    var r := GetTracking(Some(userId), date, now, docs);
    if exists i :: 0 <= i < |docs| && Throws(docs[i], userId, window) {
      assert r == Failure(500, "Error al obtener datos de tracking");
    } else {
      var data := ToSessions(SortDesc(Filter(docs, SelectedBy(userId, window)), StartKey));
      assert r == Sessions(data, |data|);
      SelectedSessions(docs, userId, window);
    }
  }

  /** The selected sessions, sorted and converted: the converted selected sessions
      rearranged, newest start first, each the user's and starting inside the window. */
  lemma SelectedSessions(docs: seq<TrackingDoc>, userId: string, window: (int, int))
    ensures var found := Filter(docs, SelectedBy(userId, window));
      var data := ToSessions(SortDesc(found, StartKey));
      && |data| == |found|
      && multiset(data) == multiset(ToSessions(found))
      && (forall i, j :: 0 <= i < j < |data| ==> data[i].startTime >= data[j].startTime)
      && (forall i :: 0 <= i < |data| ==> data[i].userId == userId && window.0 <= data[i].startTime <= window.1)
  {
    var found := Filter(docs, SelectedBy(userId, window));
    SortedAreSelected(found, userId, window);
    SortedByStart(found);
    MapMultiset(SortDesc(found, StartKey), found, ToSession);
  }

  /** Sorting keeps only selected sessions when it is given only selected sessions. */
  lemma SortedAreSelected(found: seq<TrackingDoc>, userId: string, window: (int, int))
    requires forall i :: 0 <= i < |found| ==> Selected(found[i], userId, window)
    ensures forall i :: 0 <= i < |SortDesc(found, StartKey)| ==> Selected(SortDesc(found, StartKey)[i], userId, window)
  {
    var sorted := SortDesc(found, StartKey);
    forall i | 0 <= i < |sorted|
      ensures Selected(sorted[i], userId, window)
    {
      assert sorted[i] in multiset(found);
    }
  }

  /** The converted sessions of a sorted list start no later than the ones before them. */
  lemma SortedByStart(found: seq<TrackingDoc>)
    ensures var data := ToSessions(SortDesc(found, StartKey));
      forall i, j :: 0 <= i < j < |data| ==> data[i].startTime >= data[j].startTime
  {
    var sorted := SortDesc(found, StartKey);
    var data := ToSessions(sorted);
    forall i, j | 0 <= i < j < |data| ensures data[i].startTime >= data[j].startTime {
      assert StartKey(sorted[i]) >= StartKey(sorted[j]);
    }
  }

  /** `points` in the POST body: absent (or another falsy value), an array, or something else. */
  datatype PointsValue = NoPoints | PointsArray(points: seq<Trajectory.Point>) | NotArray

  datatype PostBody = PostBody(userId: Option<string>, sessionId: Option<string>, points: PointsValue)

  /** `POST /api/tracking`, with the stored sessions. An unreadable body (`None`) makes
      the route throw; the stored sessions come back as they were. */
  function PostTracking(body: Option<PostBody>, docs: seq<TrackingDoc>): (Response, seq<TrackingDoc>)
  {
    if body.None? then (Failure(500, "Error al guardar tracking"), docs)
    else
      var b := body.value;
      if b.userId.None? || b.userId.value == "" || !b.points.PointsArray? then (Failure(400, "Datos incompletos"), docs)
      else (Acknowledged("Tracking recibido"), docs)
  }

  /** A readable body is refused with 400 exactly when the user is missing or empty or
      `points` is not an array, whatever the session id; an accepted one is acknowledged
      and, like every other outcome, leaves the stored sessions unchanged. */
  lemma PostTrackingSpec(body: Option<PostBody>, docs: seq<TrackingDoc>)
    ensures PostTracking(body, docs).1 == docs
    ensures body.Some? ==>
      (PostTracking(body, docs).0 == Failure(400, "Datos incompletos") <==>
        body.value.userId.None? || body.value.userId.value == "" || !body.value.points.PointsArray?)
    ensures body.Some? ==>
      (PostTracking(body, docs).0 == Acknowledged("Tracking recibido") <==>
        !(PostTracking(body, docs).0 == Failure(400, "Datos incompletos")))
    ensures body.None? ==> PostTracking(body, docs).0.Failure? && PostTracking(body, docs).0.status == 500
    ensures forall s :: body.Some? ==>
      PostTracking(Some(body.value.(sessionId := s)), docs) == PostTracking(body, docs)
  {
  }
}
