/** `POST /api/auth/login`: checks that both fields were sent, looks the pair up in the
    user list and answers with the user's public fields. The user list is an input. */
module Login {
  import opened Wrappers

  /** A stored user, password included. The code is declared a number; it is passed
      through as stored, whatever it holds. */
  datatype Usuario = Usuario(id: string, usuario: string, clave: string, codigo: JsValue)

  /** What a successful login returns: the password is not part of it. */
  datatype PublicUser = PublicUser(id: string, usuario: string, codigo: JsValue)

  datatype LoginBody = LoginBody(usuario: JsValue, clave: JsValue)

  datatype LoginResponse =
    | LoggedIn(user: PublicUser)
    | Refused(status: int, error: string)
    | Crashed(status: int)

  /** `u.usuario === usuario && u.clave === clave`: strict equality, so a field sent as a
      number never matches. */
  predicate Matches(u: Usuario, usuario: JsValue, clave: JsValue)
  {
    usuario == Str(u.usuario) && clave == Str(u.clave)
  }

  /** `usuarios.find(...)`: the position of the first matching user. */
  function FindFirst(users: seq<Usuario>, usuario: JsValue, clave: JsValue): (r: Option<nat>)
    ensures r.Some? ==> r.value < |users| && Matches(users[r.value], usuario, clave)
    ensures r.Some? ==> forall j :: 0 <= j < r.value ==> !Matches(users[j], usuario, clave)
    ensures r.None? ==> forall j :: 0 <= j < |users| ==> !Matches(users[j], usuario, clave)
    decreases |users|
  {
    if |users| == 0 then None
    else if Matches(users[0], usuario, clave) then Some(0)
    else
      var rest := FindFirst(users[1..], usuario, clave);
      assert forall j :: 1 <= j < |users| ==> users[j] == users[1..][j - 1];
      if rest.None? then None else Some(rest.value + 1)
  }

  function Public(u: Usuario): PublicUser
  {
    PublicUser(u.id, u.usuario, u.codigo)
  }

  /** The route; `None` is a body that is not JSON, which makes it answer 500. */
  function PostLogin(body: Option<LoginBody>, users: seq<Usuario>): LoginResponse
  {
    if body.None? then Crashed(500)
    else
      var b := body.value;
      if !Truthy(b.usuario) || !Truthy(b.clave) then Refused(400, "Usuario y contraseña requeridos")
      else
        var found := FindFirst(users, b.usuario, b.clave);
        if found.None? then Refused(401, "Usuario o contraseña incorrectos")
        else LoggedIn(Public(users[found.value]))
  }

  /** The three outcomes of a readable body: 400 exactly when a field is missing or
      empty, before any lookup; 401 exactly when no user has both the name and the
      password; otherwise the first such user's id, name and code. */
  lemma PostLoginSpec(body: LoginBody, users: seq<Usuario>)
    ensures PostLogin(Some(body), users) == Refused(400, "Usuario y contraseña requeridos")
      <==> !Truthy(body.usuario) || !Truthy(body.clave)
    ensures PostLogin(Some(body), users) == Refused(401, "Usuario o contraseña incorrectos")
      <==> Truthy(body.usuario) && Truthy(body.clave)
           && forall j :: 0 <= j < |users| ==> !Matches(users[j], body.usuario, body.clave)
    ensures PostLogin(Some(body), users).LoggedIn? <==>
      Truthy(body.usuario) && Truthy(body.clave)
      && exists k :: 0 <= k < |users| && Matches(users[k], body.usuario, body.clave)
    ensures PostLogin(Some(body), users).LoggedIn? ==>
      exists k :: 0 <= k < |users| && Matches(users[k], body.usuario, body.clave)
        && (forall j :: 0 <= j < k ==> !Matches(users[j], body.usuario, body.clave))
        && PostLogin(Some(body), users).user == PublicUser(users[k].id, users[k].usuario, users[k].codigo)
  {
  }

  /** Whatever the user list holds, a login shows only the public fields of a stored
      user, one whose name and password are the ones sent. */
  lemma LoggedInIsSent(body: LoginBody, users: seq<Usuario>)
    requires PostLogin(Some(body), users).LoggedIn?
    ensures body.usuario == Str(PostLogin(Some(body), users).user.usuario)
    ensures exists k :: 0 <= k < |users| && Public(users[k]) == PostLogin(Some(body), users).user
                       && body.clave == Str(users[k].clave)
  {
    var k := FindFirst(users, body.usuario, body.clave).value;
    assert Public(users[k]) == PostLogin(Some(body), users).user;
  }
}
