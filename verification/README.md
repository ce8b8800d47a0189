# Cobranza dashboard, modelled in Dafny

This project models the logic of a collections dashboard (*sistema de cobranza*).
Collectors (*cobradores*) record payments (*cobros*) and close their day with a
cash count (*encaje de caja*, or *arqueo*). The dashboard lists, filters,
aggregates and reports on these records. It also shows each collector's GPS route
of the day.

The model covers the pure, sequential logic behind the user interface and the API
routes:

- **Route analysis.** The GPS noise filter and the stop detector (`trajectory.dfy`),
  and the duration texts and the GPX export (`trajectory_format.dfy`).
- **Cash-count arithmetic.** The breakdown editor (`arqueo.dfy`) and the printable
  report (`arqueo_report.dfy`).
- **List pages.** The cash-count list page (`encajes_page.dfy`) and the payments list
  page (`cobros_page.dfy`), with their shared pagination (`pagination.dfy`), picker
  lists (`names.dfy`) and totals by payment form (`payments.dfy`).
- **API routes.**
  - the two list endpoints (`records_api.dfy`);
  - the day's statistics (`stats.dfy`);
  - the recent-activity feed (`actividades.dfy`) and how one of its rows is shown
    (`actividad_item.dfy`);
  - the tracking endpoint (`tracking_api.dfy`) and the login endpoint (`login.dfy`).
- **Small decisions.** The authentication guard (`auth_guard.dfy`), the sidebar
  highlighting (`sidebar.dfy`), the collector list of the tracking page
  (`tracking_page.dfy`) and the collectors page (`cobradores_page.dfy`).

Conventions:

- **Money** is in integer cents.
- **Instants** are integer milliseconds since 1970-01-01 UTC. A JavaScript `Date` is
  `Option<int>`, where `None` is `Invalid Date`. Every comparison with an
  `Invalid Date` is false.
- **Stored dates** arrive in six shapes (`DateField`): absent, `null`, another falsy
  value (0, empty text, `false`), a database timestamp, an object with only
  `seconds`, or a plain value. `new Date` turns the last two kinds of value into some
  `JsDate`.
- **Loosely typed values** (`JsValue`) are fields whose type the code does not fix:
  `undefined`, `null`, an integer, text, a boolean, or an object told apart by its
  identity. `Truthy` is JavaScript's truthiness on them.
- **Calendar days** picked in a date field are day numbers since 1970-01-01.
- **Database results** are the input sequences of the functions, in the order the
  query returns them.
- **Outside inputs** become parameters: the current time, the browser's UTC offset,
  the distance function and the locale's number and date texts.

Shared pieces:

- `Seqs` has the order-keeping `Filter` and the stable descending `SortDesc` (the
  order of JavaScript's stable `Array.prototype.sort` with a `b - a` comparator).
  It also has `Take` (`slice(0, n)`) and `SumBy`.
- `Text` has ASCII `toLowerCase`, `includes`, `startsWith`, and number-to-text
  conversion with a reader that inverts it.
- `Dates` has the JavaScript date comparisons and the stored-date readers.

## Model

| member | source | states |
|---|---|---|
| Trajectory.FilterStationaryNoise | components/TrackingMap.tsx:223-252 | the single pass computes the filter's reference definition (first point, then `KeepAfter`) |
| Trajectory.FilterShape | components/TrackingMap.tsx:223-236 | no input gives no output; otherwise the output is an order-keeping subsequence that starts with the first point, even a stationary one, and has no stationary point after it |
| Trajectory.FilterSpacing | components/TrackingMap.tsx:238-249 | every kept point after the first is at least 10 m from the previously kept point, except possibly the final input point |
| Trajectory.FilterEndpoint | components/TrackingMap.tsx:233-249 | with two or more points, a moving final point always ends the output and a stationary one is never kept after the first |
| Trajectory.FixpointIffSettled | components/TrackingMap.tsx:227-249 | filtering leaves a sequence unchanged exactly when it is settled: after the first point, every point is moving and at least 10 m from its predecessor, the last point excepted |
| Trajectory.FilteredIsSettled | components/TrackingMap.tsx:227-249 | every filter output is settled |
| Trajectory.FilterIdempotent | components/TrackingMap.tsx:227-249 | filtering the output again returns it unchanged |
| Trajectory.ClustersAreClustering | components/TrackingMap.tsx:174-187 | the scan splits the points into consecutive, disjoint, non-empty index ranges covering them; every member is within 30 m (inclusive) of its range's first point, and the first point farther away starts the next range |
| Trajectory.ClusteringIsUnique | components/TrackingMap.tsx:174-187 | any partition with those properties is the scan's |
| Trajectory.DetectStopPoints | components/TrackingMap.tsx:167-220 | the forward scan with its running cluster start emits exactly the stops of the cluster-based reference definition |
| Trajectory.DetectedStopsSpec | components/TrackingMap.tsx:167-211 | fewer than 10 points give no stops; otherwise each stop is built from one cluster that lasted at least five minutes, in index order, and its rounded duration is at least 5 |
| Trajectory.StopsOfLongClusters | components/TrackingMap.tsx:189-211 | stop k is built from the k-th cluster that lasted five minutes or more |
| Trajectory.StopsOfBounds | components/TrackingMap.tsx:189-208 | every stop built from clusters lasts at least five rounded minutes |
| Trajectory.ClosedStop | components/TrackingMap.tsx:189-208 | closing a cluster emits its stop exactly when it lasted five minutes or more |
| Trajectory.StopOfIsCentroid | components/TrackingMap.tsx:195-208 | a stop's position is the mean of its members' coordinates; its arrival and departure are the first and last members' timestamps |
| Trajectory.RoundMinutesNearest | components/TrackingMap.tsx:207 | `Math.round` of the minute span is within half a minute of the exact span |
| Trajectory.SumCoordinates | components/TrackingMap.tsx:196-201 | the left-to-right loop yields the latitude and longitude sums of the cluster |
| TrackFormat.FormatDurationReadsBack | components/TrackingMap.tsx:761-769 | with valid dates and the end not before the start, the text reads back as the whole minutes elapsed |
| TrackFormat.FormatDurationHoursIff | components/TrackingMap.tsx:761-769 | the "Xh Ym" form appears exactly when at least an hour elapsed |
| TrackFormat.FormatDurationEdges | components/TrackingMap.tsx:762-763 | no end time gives 'En progreso'; an Invalid Date on either side gives the NaN text |
| TrackFormat.StopDurationReadsBack | components/TrackingMap.tsx:628-630 | the stop text reads back as its minute count and uses "Hh Mm" exactly from 60 minutes on |
| TrackFormat.TotalStoppedAtLeast | components/TrackingMap.tsx:943-945 | the total stopped time is at least five minutes per detected stop |
| TrackFormat.GpxReadsBack | components/TrackingMap.tsx:733-759 | the metadata carries the export instant in ISO form and the name `Ruta <sessionId>`; a reader of the track segment recovers one `trkpt` per point, in order, with exactly its lat, lon, stored timestamp text and accuracy; the segment holds nothing else |
| TrackFormat.JsRem | components/TrackingMap.tsx:766 | JavaScript's `%` keeps the dividend's sign and its magnitude is below the divisor |
| Arqueo.CashTotalIsWorth | components/dashboard/EditarArqueoModal.tsx:47-65 | the hand-written cash total equals the sum over all twelve denominations of count × face value in cents (10000…100 for notes, 100…1 for coins) |
| Arqueo.CashTotalNonNegative | components/dashboard/EditarArqueoModal.tsx:47-65 | with no negative count the cash total is never negative |
| Arqueo.SetCountTotal | components/dashboard/EditarArqueoModal.tsx:240-248 | setting one count moves the total by the change times that denomination's value |
| Arqueo.AddOnePiece | components/dashboard/EditarArqueoModal.tsx:47-65 | one more piece raises the total by exactly its face value |
| Arqueo.SetCount | components/dashboard/EditarArqueoModal.tsx:277-285 | the edited denomination takes the new count and every other count is unchanged |
| Arqueo.OnCountInput | components/dashboard/EditarArqueoModal.tsx:240-248 | non-numeric input sets the count to 0; a number sets it to that number; nothing else changes |
| Arqueo.InitialDesglose | components/dashboard/EditarArqueoModal.tsx:25-44 | a stored breakdown is used as is; without one every count is zero |
| Arqueo.ZeroTotalIffNoPieces | components/dashboard/EditarArqueoModal.tsx:25-65 | the default breakdown's cash total is 0; a breakdown with every count zero totals 0; with no negative count, a total of 0 means every count is zero |
| Arqueo.NoPieceOfZeroTotal | components/dashboard/EditarArqueoModal.tsx:47-65 | with no negative count and a cash total of 0, no denomination has a piece counted |
| Arqueo.Recompute | components/dashboard/EditarArqueoModal.tsx:98-102 | after the effect, `efectivo` is the breakdown total and `totalDeclarado` is that plus the transfer |
| Arqueo.EditThenRecompute | components/dashboard/EditarArqueoModal.tsx:240-248 | editing a count and then running the effect moves the declared total by the value of the edit and leaves the transfer unchanged |
| Arqueo.RecomputeIdempotent | components/dashboard/EditarArqueoModal.tsx:98-102 | running the effect twice is the same as running it once |
| Arqueo.Classify | components/dashboard/EditarArqueoModal.tsx:359-363 | the outcome is surplus, shortage or exact exactly when the difference is positive, negative or zero |
| Arqueo.ProjectedDifference | components/dashboard/EditarArqueoModal.tsx:104 | the projected difference is collected minus (breakdown + transfer); it reads 'Sobrante', 'Faltante' or 'Exacto' exactly when collected is more than, less than or equal to that sum |
| ArqueoReport.TableRows | lib/utils/generarPDFArqueo.ts:40-60 | no breakdown gives no rows; otherwise the rows are those of the denominations with a positive count, each valued count × face value |
| ArqueoReport.TableRowsInOrder | lib/utils/generarPDFArqueo.ts:40-49 | the rows follow the fixed denomination order |
| ArqueoReport.DroppedRowsWorthNothing | lib/utils/generarPDFArqueo.ts:40-60 | with no negative count, dropping the zero rows leaves the footer sum unchanged |
| ArqueoReport.FootersMatchCashTotal | lib/utils/generarPDFArqueo.ts:309-331 | the "Total Billetes" and "Total Monedas" footers add up to the editor's cash total |
| ArqueoReport.RenderedDenomTable | lib/utils/generarPDFArqueo.ts:40-74 | the rendered table lists, in the fixed order, exactly the denominations with a positive count, one row each whose caption is the denomination's label, whose count reads back as its count and whose value is "$" and the formatted count × face value; with none counted it is the single 'Sin denominaciones registradas' row |
| ArqueoReport.ChequeNumbering | lib/utils/generarPDFArqueo.ts:77-90 | no cheques give one 'Sin cheques' row; otherwise the number in front of each row reads back as its position counted from 1 |
| ArqueoReport.ChequeFooter | lib/utils/generarPDFArqueo.ts:348-354 | the cheque footer is present exactly when there are cheques |
| ArqueoReport.DifBannerRecoversDifference | lib/utils/generarPDFArqueo.ts:93-96 | the label is SOBRANTE, FALTANTE or EXACTO by the sign; the amount is the absolute value; together they give back the signed difference |
| Dates.Normalize | app/dashboard/encajes/page.tsx:101-110 | a falsy date (absent, null, 0, empty text, false) becomes the fallback instant; a timestamp or a seconds object converts through that field; any other value is parsed |
| Dates.AsJsDate | app/api/cobros/route.ts:27 | the route's date read: a timestamp converts, null is the epoch, a plain or other falsy value parses, and an absent or seconds-only date is an Invalid Date |
| Dates.NormalizeVersusAsJsDate | app/dashboard/encajes/page.tsx:101-110 | the page's reader and the route's read agree except on falsy dates and seconds objects: an absent date or a nonzero seconds object always reads differently, null agrees exactly when the fallback is the epoch, and a nonzero seconds object reads like the timestamp of that many seconds |
| EncajesPage.ApplyFiltersConjunctive | app/dashboard/encajes/page.tsx:61-99 | the chain of four filters keeps, in order, exactly the records passing all four, and only removes records |
| EncajesPage.NoFiltersKeepAll | app/dashboard/encajes/page.tsx:61-99 | with every filter empty, all records are kept |
| EncajesPage.DayBounds | app/dashboard/encajes/page.tsx:78-95 | with both bounds on one day, a dated record is kept exactly when it falls between local 00:00:00.000 and the next local midnight; an absent date counts as the epoch |
| EncajesPage.SurplusShortage | app/dashboard/encajes/page.tsx:183-184 | both totals are ≥ 0, and `totalSobrante − totalFaltante` is the sum of all the differences |
| EncajesPage.ReplaceById | app/dashboard/encajes/page.tsx:124-128 | the list keeps its length; the saved record replaces every record with its id, and the others stay |
| EncajesPage.OnSave | app/dashboard/encajes/page.tsx:124-128 | after a save the list is the old one with the saved record in place of every record with its id; the filters and the error stay; the page is 1 and lists exactly the records of the new list passing the filters, in order |
| EncajesPage.ReplaceKeepsIds | app/dashboard/encajes/page.tsx:124-128 | saving keeps every position's id and changes nothing at a position with another id |
| EncajesPage.DeleteOnlyThat | app/dashboard/encajes/page.tsx:147 | deleting leaves no record with that id and keeps every other record, in order |
| EncajesPage.SetFilters | app/dashboard/encajes/page.tsx:61-99 | after a filter change the page is 1 and a record is listed exactly when it passes the new filters |
| EncajesPage.OnDelete | app/dashboard/encajes/page.tsx:138-154 | without a record awaiting confirmation nothing changes; a refused DELETE changes only the error, to 'Error al eliminar arqueo'; an accepted one drops every record with that id, clears the error, keeps the filters, and from page 1 lists exactly the old records with another id that pass them |
| EncajesPage.DeleteThenFilter | app/dashboard/encajes/page.tsx:61-99 | after a deletion, the filtered list holds exactly the old records with another id that pass the filters |
| EncajesPage.Usuarios | app/dashboard/encajes/page.tsx:52-53 | the user picker is strictly sorted and holds exactly the `usuarioNombre` values that occur |
| Pagination.TotalPages | app/dashboard/encajes/page.tsx:188 | the page count is the least number of 6-item pages that holds every record |
| Pagination.PageSlice | app/dashboard/encajes/page.tsx:189-191 | a page holds at most 6 records: the ones from position (page−1)·6 on, as many as remain |
| Pagination.PagesPartition | app/dashboard/encajes/page.tsx:188-191 | pages 1 to ceil(n/6), read in order, give back the filtered list |
| Pagination.ShownRangeMatchesSlice | app/dashboard/encajes/page.tsx:551 | on an existing page, "Mostrando a-b de n" names exactly the positions shown |
| Pagination.PageWindowSpec | app/dashboard/encajes/page.tsx:570-580 | for a page in range, the buttons show min(5, totalPages) consecutive existing pages, one of them the current page |
| Pagination.PrevNextClamp | app/dashboard/encajes/page.tsx:556 | previous and next stay within [1, totalPages] and move by at most one page |
| Names.SortedUnique | app/dashboard/encajes/page.tsx:52-53 | the picker list is strictly sorted and has exactly the names that occur |
| Names.StrictlySortedUnique | app/dashboard/encajes/page.tsx:52-53 | two strictly sorted lists with the same members are equal |
| Names.SortedUniqueOrderFree | app/dashboard/cobros/page.tsx:46-51 | the picker list is the same for any order of the records |
| CobrosPage.ApplyFiltersConjunctive | app/dashboard/cobros/page.tsx:59-93 | the five filters keep, in order, exactly the payments passing all five, and only remove payments |
| CobrosPage.NoFiltersKeepAll | app/dashboard/cobros/page.tsx:59-93 | with every filter empty, all payments are kept |
| CobrosPage.SearchFinds | app/dashboard/cobros/page.tsx:63-70 | a term typed as it appears in the name or the cédula finds the payment; the name is also found by the lower-cased term |
| CobrosPage.DateBounds | app/dashboard/cobros/page.tsx:83-90 | both bounds are UTC midnight and inclusive, so later instants of the end day are dropped; an unreadable date fails every bound |
| CobrosPage.Usuarios | app/dashboard/cobros/page.tsx:46-51 | the collector picker is strictly sorted and holds exactly the string `createdBy` values |
| CobrosPage.FormaPagoLabelSpec | app/dashboard/cobros/page.tsx:131-139 | each of the four known keys gets a label that differs from it and lower-cases back to it; any other input is returned unchanged |
| CobrosPage.SetFilters | app/dashboard/cobros/page.tsx:92-93 | after a filter change the page is 1 and a payment is listed exactly when it passes the filters |
| CobrosPage.PaymentsPaging | app/dashboard/cobros/page.tsx:158-161 | the pages of the filtered payments partition them, and on an existing page the caption's range has the length of the page |
| Payments.TotalsByForm | app/dashboard/cobros/page.tsx:152-155 | cash plus transfers plus all other payment forms is `totalMonto` |
| Payments.FormTotalsBounded | app/api/dashboard/stats/route.ts:54-58 | with no negative amount, cash and transfer totals are each ≥ 0 and together at most the total |
| RecordsApi.GetCobrosSpec | app/api/cobros/route.ts:33-54 | the answer is exactly the records meeting every given condition, never adds one and keeps the `fecha`-descending order |
| RecordsApi.DateRangeInclusive | app/api/cobros/route.ts:46-54 | both bounds are inclusive and optional; an unreadable date passes every bound |
| RecordsApi.GetEncajesSpec | app/api/encajes/route.ts:12-46 | a missing database answers 500 whatever was asked; otherwise the answer is the records of the user within the date range, in the stored order |
| Stats.EcuadorRangeSpec | app/api/dashboard/stats/route.ts:6-24 | startUTC ≤ now ≤ endUTC, the range spans 86 399 999 ms, and startUTC is 05:00 UTC |
| Stats.EcuadorRangeSameDay | app/api/dashboard/stats/route.ts:6-24 | two instants get the same range exactly when they fall in the same Ecuador day |
| Stats.DayQuerySpec | app/api/dashboard/stats/route.ts:31-40 | exactly 1000 documents, or all matching ones when fewer match; each is drawn from the input and timestamped within the range; newest first; no matching document left out is newer than one returned |
| Stats.AggregateSpec | app/api/dashboard/stats/route.ts:47-65 | one entry per collector key, each holding its payments' count and sum; the key is a truthy `createdBy` as stored, whatever its type, and 'Sin usuario' for a falsy one; the counts add up to the number of payments and the totals to `totalCobrado` |
| Stats.TallyIsSelection | app/api/dashboard/stats/route.ts:60-65 | the running count and sum for a key are those of the payments selected by that key |
| Stats.AggregateSelects | app/api/dashboard/stats/route.ts:60-65 | each entry's count and total are those of the payments filtered by its key |
| Stats.TopCobradoresSpec | app/api/dashboard/stats/route.ts:68-75 | exactly 5 entries, or all when there are fewer; total non-increasing; all from the tally; no entry left out has a larger total than one shown; entries with equal totals keep the tally's order |
| Stats.ProblemsSpec | app/api/dashboard/stats/route.ts:88-99 | `encajesConProblemas` ≤ `totalEncajes`; `totalDiferencias` ≥ `encajesConProblemas` ≥ 0; `totalDiferencias` is 0 exactly when there are no problems |
| Stats.GetStatsSpec | app/api/dashboard/stats/route.ts:26-110 | `cantidadCobros` and `totalEncajes` are 1000, or the day's number of payments and cash counts when fewer; the payments counted lie within the Ecuador day and none of the day's payments left out is newer; the tallies add up to `cantidadCobros` and `totalCobrado`; the ranking has 5 entries, or the whole tally when shorter, sorted, drawn from the tally, none left out larger; cash, transfers and other forms add up to `totalCobrado`; 0 ≤ `encajesConProblemas` ≤ `totalEncajes` and `totalDiferencias` ≥ 0 |
| Actividades.LimitCount | app/api/dashboard/actividades/route.ts:8 | without a `limit` the count is 20; otherwise it is the parsed value |
| Actividades.ActivityDate | app/api/dashboard/actividades/route.ts:29 | a timestamp gives its instant, a missing or null date gives now, and any other shape fails |
| Actividades.CobroActivities | app/api/dashboard/actividades/route.ts:21-32 | the mapping succeeds exactly when every payment's date is usable, and then maps each payment in place |
| Actividades.FromCobroDefaults | app/api/dashboard/actividades/route.ts:21-32 | a payment's activity shows a truthy `createdBy` as stored, whatever its type, and 'Desconocido' for a falsy one; the client and form fall back to 'Cliente desconocido' and 'efectivo'; a missing or null date becomes now; any other date that is not a timestamp yields no activity |
| Actividades.FromEncajeDefaults | app/api/dashboard/actividades/route.ts:43-53 | a cash count's activity shows the declared total and carries its difference |
| Seqs.SortDesc | app/api/dashboard/actividades/route.ts:56 | the result is sorted newest first and is a permutation of the input |
| Seqs.SortStable | app/api/dashboard/actividades/route.ts:56 | the sort is stable: for every key value, the elements with that key keep their input order |
| Seqs.TopStable | app/api/dashboard/stats/route.ts:68-75 | the first n of the sorted list hold, for each key value, a prefix of the input's elements with that key, in input order |
| Actividades.GetActividadesSpec | app/api/dashboard/actividades/route.ts:56-59 | exactly `limit` activities, or all of the merged payment and cash-count activities when fewer; newest first; a sub-multiset of the merged ones; no activity left out is newer than one shown; activities with the same date keep the merged order, payments before cash counts |
| Actividades.GetActividadesFrom | app/api/dashboard/actividades/route.ts:13-53 | every activity was built from one of the first `limit` payments or the first `limit` cash counts |
| Actividades.GetActividadesFails | app/api/dashboard/actividades/route.ts:62-67 | the 500 answer comes exactly from a non-positive or unreadable limit, or from a date stored in a shape other than a timestamp, an absent value or null |
| ActividadItem.AgoSpans | components/dashboard/ActividadItem.tsx:24-41 | each caption covers one span of elapsed time: under a minute (future included) 'Ahora', 1–59 min, 1–23 h, 'Ayer' for the whole second day, 2–6 days, then the date; each count is the whole units elapsed |
| ActividadItem.CaptionReadsBack | components/dashboard/ActividadItem.tsx:32-35 | the number in a "Hace …" caption reads back as the count it was written from |
| ActividadItem.BadgeAgreesWithEditor | components/dashboard/ActividadItem.tsx:72-89 | the badge says 'Sobrante', 'Faltante' or 'Exacto' as the cash-count editor does, its sign and amount give the difference back, and no difference shows no badge |
| ActividadItem.Shown | components/dashboard/ActividadItem.tsx:62-67 | a tag or a line shows exactly for a present, non-empty text |
| ActividadItem.FeedRows | components/dashboard/ActividadItem.tsx:58-95 | feed payments always show their payment-form tag and client line and no badge; feed cash counts always show a badge and neither a tag nor a client line |
| TrackingApi.DayWindowSpec | app/api/tracking/route.ts:26-29 | the window spans 24 h less 1 ms from 05:00 UTC; an instant is in it exactly when, moved back five hours, it falls on the requested day; consecutive windows meet |
| TrackingApi.ToSession | app/api/tracking/route.ts:59-68 | missing points become [] and a missing distance becomes 0; an absent end or creation time stays absent and a timestamp gives its instant |
| TrackingApi.GetTrackingSpec | app/api/tracking/route.ts:13-77 | 400 exactly without a `userId`; without `date` the day is today's UTC date; 500 exactly for an unreadable `date`, for a stored session of the user whose `startTime` is present but not a timestamp, or for a selected one whose `endTime` or `createdAt` is; otherwise the answer is, as a multiset, the conversion of the user's stored sessions starting in the window, newest start first, with `count` their number |
| TrackingApi.GetTrackingFound | app/api/tracking/route.ts:38-77 | with a user and a day, the route fails with 500 exactly when some stored session is unreadable where the route reads it; otherwise it answers a rearrangement of the converted selected sessions, newest start first, all the user's and in the window |
| TrackingApi.PostTrackingSpec | app/api/tracking/route.ts:92-105 | 400 exactly when `userId` is falsy or `points` is not an array, whatever `sessionId` is; a valid body is acknowledged, and no outcome changes the stored sessions |
| Login.FindFirst | app/api/auth/login/route.ts:21 | the result is the first user matching both name and password, or none when no user matches |
| Login.PostLoginSpec | app/api/auth/login/route.ts:10-38 | 400 exactly for a missing or empty field; 401 exactly when no user matches both; otherwise the first match's id, usuario and codigo |
| Login.LoggedInIsSent | app/api/auth/login/route.ts:31-38 | a login shows the public fields of a stored user whose name and password are the ones sent |
| AuthGuard.CheckAuthTable | components/AuthGuard.tsx:12-28 | no user off '/login' goes to '/login'; a user on '/login' goes to '/dashboard'; otherwise there is no redirect and the visitor is authenticated; loading always ends |
| AuthGuard.FirstVisit | components/AuthGuard.tsx:30-42 | the placeholder shows while loading; after the first check nothing renders exactly when the visitor is sent to '/login', and the children render otherwise, '/login' included |
| AuthGuard.SignedInStaysRendered | components/AuthGuard.tsx:16-24 | once authenticated, a later check without a user still redirects to '/login', but the children keep rendering |
| Sidebar.IsActiveSpec | components/dashboard/Sidebar.tsx:60 | an entry is active exactly on its own path or on a path continuing it after a '/' |
| Sidebar.NavigationShape | components/dashboard/Sidebar.tsx:17-23 | five entries, the dashboard first, every other entry below '/dashboard/' |
| Sidebar.ActiveEntries | components/dashboard/Sidebar.tsx:17-23 | the dashboard entry is active on every section page, and no path activates two sections |
| TrackingPage.CobradorListSpec | app/dashboard/tracking/page.tsx:38-51 | a user is listed exactly when its `cobradores` field is absent, 1 or '1'; order is kept; the code is `codigo`, a number or a string, when truthy, and `codigoUsuario` when `codigo` is absent, null, 0, empty or false; the name is `usuario` |
| TrackingPage.DetailLinkParts | app/dashboard/tracking/page.tsx:123 | the link carries the collector's id in the path and the chosen date as `date` |
| CobradoresPage.EstadoAgrees | app/dashboard/cobradores/page.tsx:56 | the edit form says '1' exactly when the badge says 'Activo', which happens exactly for 'A', '1' and 1 |
| CobradoresPage.EditRoundTrip | app/dashboard/cobradores/page.tsx:51-60 | saving an untouched edit sends the collector's fields and id back, with `estado` normalised, and reading that `estado` again gives the same form |
| CobradoresPage.NewFormDefaults | app/dashboard/cobradores/page.tsx:62-71 | a new form starts empty, with `estado` '1' and `periodo` '012', and is sent without an id |
| CobradoresPage.Submit | app/dashboard/cobradores/page.tsx:76-82 | the body is the form's fields plus an id, present exactly when editing and equal to the edited collector's |

## Left out

- Distance: the haversine formula (components/TrackingMap.tsx:151-161) is floating-point trigonometry. Distance is a function parameter, and no property depends on its values.
- Floating point: money is in integer cents, and `toFixed`, percentage shares and averages are not modelled.
- NaN timestamps, amounts and counts are not modelled, except where `|| 0` or `Invalid Date` turns them into a modelled value.
- Locale output: `Intl.NumberFormat`, `toLocaleString` and `toLocaleDateString` are parameters. The report's HTML/CSS text is not modelled, nor `window.open` or printing.
- Database and network: Firestore queries, the Firebase clients and the services behind the sync and collector routes are not modelled. Query results are input sequences. The order Firestore gives equal sort keys is taken to be stable. Ordering across differently typed `fecha` values is not modelled: only timestamps are ranged.
- User interface: React state, effects, the DOM, Leaflet maps, Blob downloads and JSX are not modelled, except the state the pages compute.
- Authentication storage: Firebase sign-in, logout and `localStorage` are not modelled. The stored user is an input to `AuthGuard.CheckAuth`.
- Speed, distance and merging of sessions: there is no server-side merging, deduplication or speed-statistics pipeline. `POST /api/tracking` stores nothing, and the stored speeds are only displayed.
- Lower-casing covers the ASCII letters A–Z only. JavaScript's full Unicode `toLowerCase` is not modelled.
- Calendar parsing: a `YYYY-MM-DD` text is given as the day number it names, or as `None`. ISO date text for "today" is the UTC day number.
- Server time zone: `TrackingApi.DayWindow` assumes the server clock runs on UTC. `setDate` and `setHours` in app/api/tracking/route.ts:28-29 use server-local time.
- XML text: the GPX export is modelled as an element tree. Whitespace and escaping of the serialised text are not modelled.
- Prototype keys: `CobrosPage.FormaPagoLabel` does not model lookups of inherited object keys such as 'constructor'.
- Actividades.GetActividadesFails: a non-positive or unreadable `limit` is taken to make the query throw (the route's 500 answer). This is how the database SDK treats `limit`, which is not part of this model.
- Stats.AggregateSpec: a payment without `monto` (`data.monto || 0`) is not modelled; every payment carries an integer amount.
- ArqueoReport.FootersMatchCashTotal: it requires counts ≥ 0. A negative count is dropped from the report but still counted by the editor, so the two totals then differ.
- Payments.FormTotalsBounded: it requires amounts ≥ 0. The source does not enforce this, and without it the bound can fail.
- Names.SortedUnique: it sorts by Unicode scalar value. JavaScript's default sort compares UTF-16 code units, which order differently between characters above U+FFFF and those from U+E000 to U+FFFF.
- Missing text fields: a payment's `clienteNombre`, `clienteCedula` and `formaPago` and a cash count's `usuarioNombre` are taken to be stored as text. The `TypeError` that `.toLowerCase()` or `.includes` throws on an absent one is not modelled: the 500 answer of app/api/cobros/route.ts:36-37 and the page errors at app/dashboard/cobros/page.tsx:65-66 and app/dashboard/encajes/page.tsx:67. The activity feed's `||` fallbacks (app/api/dashboard/actividades/route.ts:28, 30, 48) are modelled for the empty text only.
- Cash-count page total: `totalCobrado` of the filtered cash counts (app/dashboard/encajes/page.tsx:185) is a plain sum shown as text. It has no member; only `totalSobrante` and `totalFaltante` are modelled.
- Daylight saving: `Dates.LocalMidnight` applies one fixed UTC offset per day. A browser whose zone changes offset that day has a 23- or 25-hour day under `new Date(y, m - 1, d, …)`. Ecuador has no daylight saving.
- Presentational files, the layouts, the users page and `next.config.js` are not modelled.
