/** `GET /api/dashboard/stats`: today's payments and cash counts, where "today" is the
    current calendar day in Ecuador (UTC-5, no daylight saving). It totals the payments,
    tallies them per collector, ranks the five best collectors and counts the cash counts
    that did not balance. */
module Stats {
  import opened Wrappers
  import opened Seqs
  import opened Dates
  import opened Records
  import opened Payments

  /** Ecuador's offset from UTC. */
  const ECUADOR_OFFSET: int := -5 * HOUR_MS
  /** The most documents each of the two queries returns. */
  const QUERY_LIMIT: int := 1000
  /** How many collectors the ranking shows. */
  const TOP: int := 5

  /** `getEcuadorTodayRange`: shift the clock to Ecuador, take that UTC day from
      00:00:00.000 to 23:59:59.999, and shift both ends back. */
  function EcuadorTodayRange(now: int): (int, int)
  {
    var ecuadorNow := now + ECUADOR_OFFSET;
    var startEcuador := (ecuadorNow / DAY_MS) * DAY_MS;
    var endEcuador := startEcuador + 23 * HOUR_MS + 59 * MINUTE_MS + 59 * 1000 + 999;
    (startEcuador - ECUADOR_OFFSET, endEcuador - ECUADOR_OFFSET)
  }

  /** The range holds the current instant, lasts one day less a millisecond, and starts
      at 05:00 UTC, which is midnight in Ecuador. */
  lemma EcuadorRangeSpec(now: int)
    ensures var (start, end) := EcuadorTodayRange(now);
      && start <= now <= end
      && end - start == DAY_MS - 1
      && start % DAY_MS == 5 * HOUR_MS
  {
  }

  lemma DivBetween(x: int, q: int)
    requires q * DAY_MS <= x < (q + 1) * DAY_MS
    ensures x / DAY_MS == q
  {
  }

  /** Two instants get the same range exactly when they fall in the same Ecuador day:
      the range is that day and nothing else decides it. */
  lemma EcuadorRangeSameDay(now: int, t: int)
    ensures EcuadorTodayRange(t) == EcuadorTodayRange(now)
      <==> EcuadorTodayRange(now).0 <= t <= EcuadorTodayRange(now).1
  {
    var q := (now + ECUADOR_OFFSET) / DAY_MS;
    var (start, end) := EcuadorTodayRange(now);
    assert start == q * DAY_MS - ECUADOR_OFFSET;
    if start <= t <= end {
      DivBetween(t + ECUADOR_OFFSET, q);
    }
    EcuadorRangeSpec(t);
  }

  /** A stored date as the query compares it: only database timestamps are ordered
      against the timestamp bounds; any other stored shape never matches. */
  function Stamp(d: DateField): Option<int>
  {
    match d
    case Timestamp(ms) => Some(ms)
    case _ => None
  }

  predicate InRange(stamp: Option<int>, range: (int, int))
  {
    stamp.Some? && range.0 <= stamp.value <= range.1
  }

  function InWindow<T>(when: T -> DateField, range: (int, int)): T -> bool
  {
    x => InRange(Stamp(when(x)), range)
  }

  function StampKey<T>(when: T -> DateField): T -> int
  {
    x => Stamp(when(x)).GetOr(0)
  }

  /** The query `where('fecha', '>=', start), where('fecha', '<=', end), orderBy('fecha',
      'desc'), limit(1000)` over a collection. */
  function DayQuery<T>(all: seq<T>, when: T -> DateField, range: (int, int)): seq<T>
  {
    Take(SortDesc(Filter(all, InWindow(when, range)), StampKey(when)), QUERY_LIMIT)
  }

  /** The query returns the newest 1000 documents timestamped within the range: exactly
      1000, or all matching ones when fewer match, newest first, and no matching document
      left out is newer than one returned. */
  lemma DayQuerySpec<T>(all: seq<T>, when: T -> DateField, range: (int, int))
    ensures var r := DayQuery(all, when, range);
      var matching := Filter(all, InWindow(when, range));
      && |r| == (if |matching| < QUERY_LIMIT then |matching| else QUERY_LIMIT)
      && (forall i :: 0 <= i < |r| ==> r[i] in all && InRange(Stamp(when(r[i])), range))
      && SortedDesc(r, StampKey(when))
      && multiset(r) <= multiset(matching)
      && (|matching| <= QUERY_LIMIT ==> multiset(r) == multiset(matching))
      && (forall e, t :: e in matching && e !in r && t in r ==> Stamp(when(t)).GetOr(0) >= Stamp(when(e)).GetOr(0))
  {
    var matching := Filter(all, InWindow(when, range));
    var sorted := SortDesc(matching, StampKey(when));
    var r := DayQuery(all, when, range);
    TopByKey(matching, StampKey(when), QUERY_LIMIT);
    TopDominates(matching, StampKey(when), QUERY_LIMIT);
    forall e, t | e in matching && e !in r && t in r
      ensures Stamp(when(t)).GetOr(0) >= Stamp(when(e)).GetOr(0)
    {
      assert StampKey(when)(t) >= StampKey(when)(e);
    }
    forall i | 0 <= i < |r| ensures r[i] in all && InRange(Stamp(when(r[i])), range) {
      assert r[i] == sorted[i];
      assert sorted[i] in multiset(matching);
    }
  }

  const CobroWhen: Cobro -> DateField := (c: Cobro) => c.fecha
  const EncajeWhen: Encaje -> DateField := (e: Encaje) => e.fecha

  /** `data.createdBy || 'Sin usuario'`: a truthy author, whatever its type, is its own
      key; a falsy one is tallied under 'Sin usuario'. */
  function UserKey(c: Cobro): JsValue
  {
    if Truthy(c.createdBy) then c.createdBy else Str("Sin usuario")
  }

  function KeyIs(u: JsValue): Cobro -> bool
  {
    c => UserKey(c) == u
  }

  /** One collector's tally: `{ usuario, total, cantidad }`. */
  datatype CollectorTotal = CollectorTotal(usuario: JsValue, total: int, cantidad: int)

  const Total: CollectorTotal -> int := (e: CollectorTotal) => e.total
  const Cantidad: CollectorTotal -> int := (e: CollectorTotal) => e.cantidad

  /** No collector has two entries: the keys of a `Map`. */
  ghost predicate DistinctKeys(entries: seq<CollectorTotal>)
  {
    forall i, j :: 0 <= i < j < |entries| ==> entries[i].usuario != entries[j].usuario
  }

  /** How one entry changes when `u` is paid `monto`: its own entry gains the amount and
      one payment, any other entry is left as it was. */
  function Bump(e: CollectorTotal, u: JsValue, monto: int): CollectorTotal
  {
    if e.usuario == u then e.(total := e.total + monto, cantidad := e.cantidad + 1) else e
  }

  /** One step of the `forEach`: the collector's entry is bumped, or, for a collector not
      seen yet, a new entry goes at the end (a `Map` keeps its keys in insertion order). */
  function AddTo(entries: seq<CollectorTotal>, u: JsValue, monto: int): (r: seq<CollectorTotal>)
    requires DistinctKeys(entries)
    ensures |r| == |entries| + (if HasKey(entries, u) then 0 else 1)
    ensures forall i :: 0 <= i < |entries| ==> r[i] == Bump(entries[i], u, monto)
    ensures !HasKey(entries, u) ==> r[|entries|] == CollectorTotal(u, monto, 1)
    ensures DistinctKeys(r)
    decreases |entries|
  {
    if |entries| == 0 then [CollectorTotal(u, monto, 1)]
    else if entries[0].usuario == u then
      [Bump(entries[0], u, monto)] + entries[1..]
    else
      var rest := AddTo(entries[1..], u, monto);
      HasKeyTail(entries, u);
      [entries[0]] + rest
  }

  /** Past a first entry that is not `u`'s, `u` has an entry exactly when the rest has one. */
  lemma HasKeyTail(entries: seq<CollectorTotal>, u: JsValue)
    requires |entries| > 0 && entries[0].usuario != u
    ensures HasKey(entries, u) <==> HasKey(entries[1..], u)
  {
    var tail := entries[1..];
    if HasKey(tail, u) {
      var j :| 0 <= j < |tail| && tail[j].usuario == u;
      assert entries[j + 1].usuario == u;
    }
    if HasKey(entries, u) {
      var j :| 0 <= j < |entries| && entries[j].usuario == u;
      assert tail[j - 1].usuario == u;
    }
  }

  /** Each step adds the amount to the sum of the totals and one to the sum of the counts. */
  lemma {:induction false} AddToSums(entries: seq<CollectorTotal>, u: JsValue, monto: int)
    requires DistinctKeys(entries)
    ensures SumBy(AddTo(entries, u, monto), Total) == SumBy(entries, Total) + monto
    ensures SumBy(AddTo(entries, u, monto), Cantidad) == SumBy(entries, Cantidad) + 1
    decreases |entries|
  {
    if |entries| > 0 && entries[0].usuario != u {
      AddToSums(entries[1..], u, monto);
      assert AddTo(entries, u, monto)[1..] == AddTo(entries[1..], u, monto);
    }
  }

  /** The tally of `cobradoresMapa` after the `forEach` over `cs`. */
  function Aggregate(cs: seq<Cobro>): (r: seq<CollectorTotal>)
    ensures DistinctKeys(r)
    decreases |cs|
  {
    if |cs| == 0 then []
    else
      var last := cs[|cs| - 1];
      AddTo(Aggregate(cs[..|cs| - 1]), UserKey(last), last.monto)
  }

  /** How many of the payments are tallied under `u`, counted the way the `forEach`
      meets them. */
  function CountFor(cs: seq<Cobro>, u: JsValue): int
    decreases |cs|
  {
    if |cs| == 0 then 0
    else CountFor(cs[..|cs| - 1], u) + (if UserKey(cs[|cs| - 1]) == u then 1 else 0)
  }

  /** The sum of the amounts tallied under `u`. */
  function SumFor(cs: seq<Cobro>, u: JsValue): int
    decreases |cs|
  {
    if |cs| == 0 then 0
    else SumFor(cs[..|cs| - 1], u) + (if UserKey(cs[|cs| - 1]) == u then cs[|cs| - 1].monto else 0)
  }

  /** Every entry holds its collector's number of payments and their sum. */
  ghost predicate Tallies(entries: seq<CollectorTotal>, cs: seq<Cobro>)
  {
    forall i :: 0 <= i < |entries| ==>
      entries[i].cantidad == CountFor(cs, entries[i].usuario) && entries[i].total == SumFor(cs, entries[i].usuario)
  }

  ghost predicate HasKey(entries: seq<CollectorTotal>, u: JsValue)
  {
    exists i :: 0 <= i < |entries| && entries[i].usuario == u
  }

  /** Some payment is tallied under `u`. */
  ghost predicate IsAuthor(cs: seq<Cobro>, u: JsValue)
  {
    exists k :: 0 <= k < |cs| && UserKey(cs[k]) == u
  }

  /** The collectors with an entry are exactly the authors of the payments. */
  ghost predicate KeysAreAuthors(entries: seq<CollectorTotal>, cs: seq<Cobro>)
  {
    && (forall i :: 0 <= i < |entries| ==> IsAuthor(cs, entries[i].usuario))
    && (forall k :: 0 <= k < |cs| ==> HasKey(entries, UserKey(cs[k])))
  }

  /** The selection by collector, counted and summed, is the tally's reference:
      `CountFor` and `SumFor` are the size and sum of `cs.filter(c => key(c) === u)`. */
  lemma {:induction false} TallyIsSelection(cs: seq<Cobro>, u: JsValue)
    ensures CountFor(cs, u) == |Filter(cs, KeyIs(u))|
    ensures SumFor(cs, u) == SumBy(Filter(cs, KeyIs(u)), Monto)
    decreases |cs|
  {
    if |cs| > 0 {
      var init := cs[..|cs| - 1];
      var last := cs[|cs| - 1];
      TallyIsSelection(init, u);
      var added := if UserKey(last) == u then [last] else [];
      FilterSnoc(cs, KeyIs(u));
      assert SumBy(added, Monto) == if UserKey(last) == u then last.monto else 0 by {
        assert [last][1..] == [];
      }
      SumByAppend(Filter(init, KeyIs(u)), added, Monto);
    }
  }

  lemma {:induction false} NoneCounted(cs: seq<Cobro>, u: JsValue)
    requires forall k :: 0 <= k < |cs| ==> UserKey(cs[k]) != u
    ensures CountFor(cs, u) == 0 && SumFor(cs, u) == 0
    decreases |cs|
  {
    if |cs| > 0 {
      NoneCounted(cs[..|cs| - 1], u);
    }
  }

  lemma TallySnoc(init: seq<Cobro>, last: Cobro, u: JsValue)
    ensures CountFor(init + [last], u) == CountFor(init, u) + (if UserKey(last) == u then 1 else 0)
    ensures SumFor(init + [last], u) == SumFor(init, u) + (if UserKey(last) == u then last.monto else 0)
  {
    var cs := init + [last];
    assert cs[..|cs| - 1] == init && cs[|cs| - 1] == last;
  }

  lemma TalliesStep(init: seq<Cobro>, last: Cobro, r0: seq<CollectorTotal>)
    requires DistinctKeys(r0) && Tallies(r0, init) && KeysAreAuthors(r0, init)
    ensures Tallies(AddTo(r0, UserKey(last), last.monto), init + [last])
  {
    var r := AddTo(r0, UserKey(last), last.monto);
    forall i | 0 <= i < |r|
      ensures r[i].cantidad == CountFor(init + [last], r[i].usuario)
      ensures r[i].total == SumFor(init + [last], r[i].usuario)
    {
      if i < |r0| {
        TallyKept(init, last, r0, i);
      } else {
        TallyOpened(init, last, r0, i);
      }
    }
  }

  /** An entry that was already there gains exactly the new payment's share. */
  lemma TallyKept(init: seq<Cobro>, last: Cobro, r0: seq<CollectorTotal>, i: int)
    requires DistinctKeys(r0) && Tallies(r0, init) && 0 <= i < |r0|
    ensures var r := AddTo(r0, UserKey(last), last.monto);
      r[i].cantidad == CountFor(init + [last], r[i].usuario) && r[i].total == SumFor(init + [last], r[i].usuario)
  {
    var u := r0[i].usuario;
    TallySnoc(init, last, u);
    assert r0[i].cantidad == CountFor(init, u) && r0[i].total == SumFor(init, u);
  }

  /** The entry the step appends holds just the new payment. */
  lemma TallyOpened(init: seq<Cobro>, last: Cobro, r0: seq<CollectorTotal>, i: int)
    requires DistinctKeys(r0) && KeysAreAuthors(r0, init)
    requires |r0| <= i < |AddTo(r0, UserKey(last), last.monto)|
    ensures var r := AddTo(r0, UserKey(last), last.monto);
      r[i].cantidad == CountFor(init + [last], r[i].usuario) && r[i].total == SumFor(init + [last], r[i].usuario)
  {
    var k := UserKey(last);
    var r := AddTo(r0, k, last.monto);
    NewEntry(init, r0, k, last.monto);
    assert r[i] == CollectorTotal(k, last.monto, 1);
    TallySnoc(init, last, k);
  }

  /** A collector's first payment opens a new entry holding just that payment. */
  lemma NewEntry(init: seq<Cobro>, r0: seq<CollectorTotal>, k: JsValue, monto: int)
    requires DistinctKeys(r0) && KeysAreAuthors(r0, init)
    requires |AddTo(r0, k, monto)| > |r0|
    ensures AddTo(r0, k, monto)[|r0|] == CollectorTotal(k, monto, 1)
    ensures CountFor(init, k) == 0 && SumFor(init, k) == 0
  {
    assert forall j :: 0 <= j < |r0| ==> r0[j].usuario != k;
    forall j | 0 <= j < |init| ensures UserKey(init[j]) != k {
      assert HasKey(r0, UserKey(init[j]));
      var i :| 0 <= i < |r0| && r0[i].usuario == UserKey(init[j]);
    }
    NoneCounted(init, k);
  }

  lemma AuthorSnoc(init: seq<Cobro>, last: Cobro, u: JsValue)
    ensures IsAuthor(init + [last], u) <==> IsAuthor(init, u) || UserKey(last) == u
  {
    var cs := init + [last];
    if IsAuthor(init, u) {
      var k :| 0 <= k < |init| && UserKey(init[k]) == u;
      assert cs[k] == init[k];
    }
    if UserKey(last) == u {
      assert cs[|init|] == last;
    }
    if IsAuthor(cs, u) {
      var k :| 0 <= k < |cs| && UserKey(cs[k]) == u;
      if k < |init| {
        assert cs[k] == init[k];
      }
    }
  }

  lemma HasKeyAddTo(r0: seq<CollectorTotal>, k: JsValue, monto: int, u: JsValue)
    requires DistinctKeys(r0)
    ensures HasKey(AddTo(r0, k, monto), u) <==> HasKey(r0, u) || u == k
  {
    if HasKey(r0, u) || u == k {
      AddToKeepsKeys(r0, k, monto, u);
    }
    if HasKey(AddTo(r0, k, monto), u) {
      AddToAddsOnlyK(r0, k, monto, u);
    }
  }

  /** A collector keeps its entry, and `k` always has one afterwards. */
  lemma AddToKeepsKeys(r0: seq<CollectorTotal>, k: JsValue, monto: int, u: JsValue)
    requires DistinctKeys(r0) && (HasKey(r0, u) || u == k)
    ensures HasKey(AddTo(r0, k, monto), u)
  {
    var r := AddTo(r0, k, monto);
    if HasKey(r0, u) {
      var i :| 0 <= i < |r0| && r0[i].usuario == u;
      assert r[i] == Bump(r0[i], k, monto);
    } else {
      assert r[|r0|].usuario == k;
    }
  }

  /** The step opens no entry for anyone but `k`. */
  lemma AddToAddsOnlyK(r0: seq<CollectorTotal>, k: JsValue, monto: int, u: JsValue)
    requires DistinctKeys(r0) && HasKey(AddTo(r0, k, monto), u)
    ensures HasKey(r0, u) || u == k
  {
    var r := AddTo(r0, k, monto);
    var i :| 0 <= i < |r| && r[i].usuario == u;
    if i < |r0| {
      assert r[i] == Bump(r0[i], k, monto);
      assert r0[i].usuario == u;
    } else {
      assert r[i] == CollectorTotal(k, monto, 1);
    }
  }

  lemma KeysStep(init: seq<Cobro>, last: Cobro, r0: seq<CollectorTotal>)
    requires DistinctKeys(r0) && KeysAreAuthors(r0, init)
    ensures KeysAreAuthors(AddTo(r0, UserKey(last), last.monto), init + [last])
  {
    EntriesStayAuthors(init, last, r0);
    AuthorsKeepEntries(init, last, r0);
  }

  /** After the step every entry still belongs to an author. */
  lemma EntriesStayAuthors(init: seq<Cobro>, last: Cobro, r0: seq<CollectorTotal>)
    requires DistinctKeys(r0) && KeysAreAuthors(r0, init)
    ensures var r := AddTo(r0, UserKey(last), last.monto);
      forall i :: 0 <= i < |r| ==> IsAuthor(init + [last], r[i].usuario)
  {
    var k := UserKey(last);
    var r := AddTo(r0, k, last.monto);
    forall i | 0 <= i < |r| ensures IsAuthor(init + [last], r[i].usuario) {
      AuthorSnoc(init, last, r[i].usuario);
      if i < |r0| {
        assert r[i].usuario == r0[i].usuario;
      } else {
        assert !HasKey(r0, k) && i == |r0|;
        assert r[i].usuario == k;
      }
    }
  }

  /** After the step every author, the new payment's included, has an entry. */
  lemma AuthorsKeepEntries(init: seq<Cobro>, last: Cobro, r0: seq<CollectorTotal>)
    requires DistinctKeys(r0) && KeysAreAuthors(r0, init)
    ensures var cs := init + [last];
      forall j :: 0 <= j < |cs| ==> HasKey(AddTo(r0, UserKey(last), last.monto), UserKey(cs[j]))
  {
    var k := UserKey(last);
    var cs := init + [last];
    forall j | 0 <= j < |cs| ensures HasKey(AddTo(r0, k, last.monto), UserKey(cs[j])) {
      HasKeyAddTo(r0, k, last.monto, UserKey(cs[j]));
      if j < |init| {
        assert cs[j] == init[j];
      }
    }
  }

  /** The entries' collectors are exactly the payments' authors. */
  lemma {:induction false} AggregateKeys(cs: seq<Cobro>)
    ensures KeysAreAuthors(Aggregate(cs), cs)
    decreases |cs|
  {
    if |cs| > 0 {
      var init := cs[..|cs| - 1];
      var last := cs[|cs| - 1];
      assert cs == init + [last];
      AggregateKeys(init);
      KeysStep(init, last, Aggregate(init));
    }
  }

  /** Every entry holds its collector's count and sum. */
  lemma {:induction false} AggregateTallies(cs: seq<Cobro>)
    ensures Tallies(Aggregate(cs), cs)
    decreases |cs|
  {
    if |cs| > 0 {
      var init := cs[..|cs| - 1];
      var last := cs[|cs| - 1];
      assert cs == init + [last];
      AggregateTallies(init);
      AggregateKeys(init);
      TallyExtend(init, last);
    }
  }

  /** One more payment keeps every entry's count and sum right. */
  lemma TallyExtend(init: seq<Cobro>, last: Cobro)
    requires Tallies(Aggregate(init), init) && KeysAreAuthors(Aggregate(init), init)
    ensures Tallies(Aggregate(init + [last]), init + [last])
  {
    var cs := init + [last];
    assert cs[..|cs| - 1] == init;
    TalliesStep(init, last, Aggregate(init));
  }

  /** The counts add up to the number of payments and the totals to their sum. */
  lemma {:induction false} AggregateSums(cs: seq<Cobro>)
    ensures SumBy(Aggregate(cs), Cantidad) == |cs|
    ensures SumBy(Aggregate(cs), Total) == TotalMonto(cs)
    decreases |cs|
  {
    if |cs| > 0 {
      var init := cs[..|cs| - 1];
      var last := cs[|cs| - 1];
      assert cs == init + [last];
      AggregateSums(init);
      AddToSums(Aggregate(init), UserKey(last), last.monto);
      SumByAppend(init, [last], Monto);
    }
  }

  /** The tally has one entry per author, in order of first appearance, each with that
      collector's count and sum, so the counts add up to the number of payments and the
      totals to `totalCobrado`. */
  lemma AggregateSpec(cs: seq<Cobro>)
    ensures Tallies(Aggregate(cs), cs)
    ensures KeysAreAuthors(Aggregate(cs), cs)
    ensures SumBy(Aggregate(cs), Cantidad) == |cs|
    ensures SumBy(Aggregate(cs), Total) == TotalMonto(cs)
  {
    AggregateTallies(cs);
    AggregateKeys(cs);
    AggregateSums(cs);
  }

  /** Each entry's count and total are those of `cobros.filter(c => key(c) === usuario)`. */
  lemma AggregateSelects(cs: seq<Cobro>)
    ensures forall i :: 0 <= i < |Aggregate(cs)| ==>
      && Aggregate(cs)[i].cantidad == |Filter(cs, KeyIs(Aggregate(cs)[i].usuario))|
      && Aggregate(cs)[i].total == SumBy(Filter(cs, KeyIs(Aggregate(cs)[i].usuario)), Monto)
  {
    AggregateSpec(cs);
    forall i | 0 <= i < |Aggregate(cs)| {
      TallyIsSelection(cs, Aggregate(cs)[i].usuario);
    }
  }

  /** `topCobradores`: the tally sorted by total, largest first, cut to five. */
  function TopCobradores(entries: seq<CollectorTotal>): seq<CollectorTotal>
  {
    Take(SortDesc(entries, Total), TOP)
  }

  /** Five entries, or all of them when there are fewer, largest total first, all from
      the tally; every collector left out has a total no larger than any ranked one.
      Among collectors with equal totals, the ones ranked are the first of them in the
      tally's order. */
  lemma TopCobradoresSpec(entries: seq<CollectorTotal>)
    ensures var top := TopCobradores(entries);
      && |top| == (if |entries| < TOP then |entries| else TOP)
      && SortedDesc(top, Total)
      && (forall i :: 0 <= i < |top| ==> top[i] in entries)
      && (forall e, t :: e in entries && e !in top && t in top ==> t.total >= e.total)
      && (|entries| <= TOP ==> multiset(top) == multiset(entries))
      && (forall t :: Filter(top, WithKey(Total, t)) <= Filter(entries, WithKey(Total, t)))
  {
    var top := TopCobradores(entries);
    forall t ensures Filter(top, WithKey(Total, t)) <= Filter(entries, WithKey(Total, t)) {
      TopStable(entries, Total, TOP, t);
    }
    TopByKey(entries, Total, TOP);
    TopDominates(entries, Total, TOP);
    forall e, t | e in entries && e !in top && t in top ensures t.total >= e.total {
      assert Total(t) >= Total(e);
    }
    forall i | 0 <= i < |top| ensures top[i] in entries {
      assert top[i] in multiset(top);
    }
  }

  /** `data.diferencia || 0` taken as given: the difference of a cash count, in cents. */
  const Diferencia: Encaje -> int := (e: Encaje) => e.diferencia
  const AbsDiferencia: Encaje -> int := (e: Encaje) => if e.diferencia < 0 then -e.diferencia else e.diferencia
  const Unbalanced: Encaje -> bool := (e: Encaje) => e.diferencia != 0

  /** `encajesConProblemas`: the cash counts whose difference is not zero. */
  function ProblemCount(es: seq<Encaje>): nat
  {
    |Filter(es, Unbalanced)|
  }

  /** `totalDiferencias`: the sum of the absolute differences. */
  function TotalDiferencias(es: seq<Encaje>): int
  {
    SumBy(es, AbsDiferencia)
  }

  /** No more problem counts than cash counts; the sum of absolute differences is at
      least one cent per unbalanced count, so it is zero exactly when every count
      balanced. */
  lemma {:induction false} ProblemsSpec(es: seq<Encaje>)
    ensures ProblemCount(es) <= |es|
    ensures TotalDiferencias(es) >= ProblemCount(es) >= 0
    ensures TotalDiferencias(es) == 0 <==> ProblemCount(es) == 0
    decreases |es|
  {
    if |es| > 0 {
      ProblemsSpec(es[1..]);
    }
  }

  /** The statistics the route returns. */
  datatype DayStats = DayStats(
    totalCobrado: int,
    totalEfectivo: int,
    totalTransferencias: int,
    cantidadCobros: int,
    topCobradores: seq<CollectorTotal>,
    totalEncajes: int,
    encajesConProblemas: int,
    totalDiferencias: int)

  /** The route, from the current instant and the two collections. */
  function GetStats(now: int, cobros: seq<Cobro>, encajes: seq<Encaje>): DayStats
  {
    var range := EcuadorTodayRange(now);
    var cs := DayQuery(cobros, CobroWhen, range);
    var es := DayQuery(encajes, EncajeWhen, range);
    DayStats(TotalMonto(cs), TotalEfectivo(cs), TotalTransferencias(cs), |cs|,
             TopCobradores(Aggregate(cs)), |es|, ProblemCount(es), TotalDiferencias(es))
  }

  /** What the statistics promise: the payments and the cash counts counted are the
      newest 1000 of those made today in Ecuador, or all of them when fewer were made;
      the ranking holds the five largest entries of the per-collector tally, or all of
      them when there are fewer; the tally's counts add up to `cantidadCobros` and its
      totals to `totalCobrado`; cash and transfers are part of that total; and the
      problem count never exceeds the number of cash counts, whose absolute differences
      add up to a non-negative amount. */
  lemma GetStatsSpec(now: int, cobros: seq<Cobro>, encajes: seq<Encaje>)
    ensures var range := EcuadorTodayRange(now);
      var cs := DayQuery(cobros, CobroWhen, range);
      var todayCobros := Filter(cobros, InWindow(CobroWhen, range));
      var todayEncajes := Filter(encajes, InWindow(EncajeWhen, range));
      var s := GetStats(now, cobros, encajes);
      && s.cantidadCobros == (if |todayCobros| < QUERY_LIMIT then |todayCobros| else QUERY_LIMIT)
      && s.totalEncajes == (if |todayEncajes| < QUERY_LIMIT then |todayEncajes| else QUERY_LIMIT)
      && (forall i :: 0 <= i < |cs| ==> cs[i] in cobros && InRange(Stamp(cs[i].fecha), range))
      && (forall e, t :: e in todayCobros && e !in cs && t in cs ==> Stamp(t.fecha).GetOr(0) >= Stamp(e.fecha).GetOr(0))
      && |s.topCobradores| == (if |Aggregate(cs)| < TOP then |Aggregate(cs)| else TOP)
      && SortedDesc(s.topCobradores, Total)
      && (forall i :: 0 <= i < |s.topCobradores| ==> s.topCobradores[i] in Aggregate(cs))
      && (forall e, t :: e in Aggregate(cs) && e !in s.topCobradores && t in s.topCobradores ==> t.total >= e.total)
      && SumBy(Aggregate(cs), Cantidad) == s.cantidadCobros
      && SumBy(Aggregate(cs), Total) == s.totalCobrado
      && s.totalEfectivo + s.totalTransferencias + SumBy(Filter(cs, IsOtherForm), Monto) == s.totalCobrado
      && 0 <= s.encajesConProblemas <= s.totalEncajes
      && s.totalDiferencias >= 0
  {
    var range := EcuadorTodayRange(now);
    var cs := DayQuery(cobros, CobroWhen, range);
    var es := DayQuery(encajes, EncajeWhen, range);
    var s := GetStats(now, cobros, encajes);
    assert s == DayStats(TotalMonto(cs), TotalEfectivo(cs), TotalTransferencias(cs), |cs|,
      TopCobradores(Aggregate(cs)), |es|, ProblemCount(es), TotalDiferencias(es));
    DayQuerySpec(cobros, CobroWhen, range);
    assert |es| == (var m := Filter(encajes, InWindow(EncajeWhen, range)); if |m| < QUERY_LIMIT then |m| else QUERY_LIMIT) by {
      DayQuerySpec(encajes, EncajeWhen, range);
    }
    assert SumBy(Aggregate(cs), Cantidad) == |cs| && SumBy(Aggregate(cs), Total) == TotalMonto(cs) by {
      AggregateSpec(cs);
    }
    TopCobradoresSpec(Aggregate(cs));
    TotalsByForm(cs);
    ProblemsSpec(es);
  }
}
