/** The route-tracking page: which users are listed as collectors, how each is shown,
    and the link to a collector's day. The user list is an input. */
module TrackingPage {
  import opened Wrappers
  import opened Seqs

  /** A user as `/api/usuarios` returns it, with the fields the page reads. */
  datatype UserRecord = UserRecord(
    id: string,
    codigo: JsValue,
    codigoUsuario: JsValue,
    usuario: Option<string>,
    cobradores: JsValue)

  /** One listed collector. The code is passed on as stored, a number or a string. */
  datatype CobradorItem = CobradorItem(id: string, codigo: JsValue, nombre: Option<string>)

  /** A user without a `cobradores` field is a collector; one with it is a collector
      only when it holds 1 or '1'. */
  predicate IsCobrador(u: UserRecord)
  {
    u.cobradores == Undefined || u.cobradores == Num(1) || u.cobradores == Str("1")
  }

  const Collectors: UserRecord -> bool := (u: UserRecord) => IsCobrador(u)

  /** `codigo: c.codigo || c.codigoUsuario, nombre: c.usuario`. */
  function ToItem(u: UserRecord): CobradorItem
  {
    CobradorItem(u.id, if Truthy(u.codigo) then u.codigo else u.codigoUsuario, u.usuario)
  }

  /** The listed collectors: `fetchCobradores`' filter then map. */
  function CobradorList(users: seq<UserRecord>): (r: seq<CobradorItem>)
    ensures |r| == |Filter(users, Collectors)|
    ensures forall i :: 0 <= i < |r| ==> r[i] == ToItem(Filter(users, Collectors)[i])
  {
    var kept := Filter(users, Collectors);
    seq(|kept|, i requires 0 <= i < |kept| => ToItem(kept[i]))
  }

  /** A user is listed exactly when it is a collector; the list keeps the users' order;
      each entry shows the user's name and the user's code, or the account code when the
      code is absent, null, 0, empty or false. */
  lemma CobradorListSpec(users: seq<UserRecord>, u: UserRecord)
    ensures ToItem(u) in CobradorList(users) <== u in users && IsCobrador(u)
    ensures (exists i :: 0 <= i < |CobradorList(users)| && Filter(users, Collectors)[i] == u) <==> u in users && IsCobrador(u)
    ensures IsSubseq(Filter(users, Collectors), users)
    ensures ToItem(u).nombre == u.usuario && ToItem(u).id == u.id
    ensures Truthy(u.codigo) ==> ToItem(u).codigo == u.codigo
    ensures u.codigo in {Undefined, Null, Num(0), Str(""), Bool(false)} ==> ToItem(u).codigo == u.codigoUsuario
  {
    var kept := Filter(users, Collectors);
    FilterIsSubseq(users, Collectors);
    if u in users && IsCobrador(u) {
      var i :| 0 <= i < |kept| && kept[i] == u;
      assert CobradorList(users)[i] == ToItem(u);
    }
  }

  /** The link to a collector's route of the chosen day. */
  function DetailLink(id: string, date: string): (link: string)
  {
    "/dashboard/tracking/" + id + "?date=" + date
  }

  /** The link carries the collector's id after the tracking path and the chosen date as
      its `date` parameter. */
  lemma DetailLinkParts(id: string, date: string)
    ensures var link := DetailLink(id, date);
      && link[..20] == "/dashboard/tracking/"
      && link[20..20 + |id|] == id
      && link[|link| - |date|..] == date
      && link[|link| - |date| - 6..|link| - |date|] == "?date="
  {
  }
}
