/**
 * The browser's `localStorage` as the screens use it: string values under string keys, except
 * `user`, which holds a stringified object and is kept here as that object's fields. The decoded
 * JSON web token payload is an input; a payload that cannot be decoded is `None`.
 */
module Sesion {
  import opened Wrappers
  import opened Text

  datatype Valor = Texto(s: string) | Objeto(campos: map<string, string>)

  type Almacen = map<string, Valor>

  /** The claims the screens read from the access token. */
  datatype Carga = Carga(exp: Option<int>, userId: Option<int>, username: Option<string>)

  /** `localStorage.getItem(k)`: the stored text, or `None` (`null`). */
  function Leer(s: Almacen, k: string): (r: Option<string>)
    ensures r.Some? <==> k in s && s[k].Texto?
    ensures r.Some? ==> r.value == s[k].s
  {
    if k in s && s[k].Texto? then Some(s[k].s) else None
  }

  /** JavaScript truthiness of a stored text: present and not empty. */
  predicate Presente(v: Option<string>)
  {
    v.Some? && v.value != ""
  }

  /** `localStorage.clear()`. */
  const Vacio: Almacen := map[]

  /** `handleLogout` of the two staff dashboards: the storage is cleared and the screen goes to /login. */
  function CerrarSesion(s: Almacen): (r: (Almacen, string))
    ensures r.0 == map[] && r.1 == "/login"
  {
    (Vacio, "/login")
  }

  /** The four keys a failed login removes. */
  const ClavesSesion: set<string> := {"access", "refresh", "user", "rol"}

  /** `removeItem` on each key of `ks`: those keys go, every other key stays as it was. */
  function Quitar(s: Almacen, ks: set<string>): (r: Almacen)
    ensures forall k :: k in r <==> k in s && k !in ks
    ensures forall k :: k in r ==> r[k] == s[k]
  {
    s - ks
  }

  /**
   * `JSON.parse(localStorage.getItem("user") || "{}")`: an absent or empty user reads as an empty
   * object, any other stored text is not an object and the parse fails.
   */
  function CamposUsuario(s: Almacen): (r: Option<map<string, string>>)
    ensures "user" !in s || s["user"] == Texto("") ==> r == Some(map[])
    ensures "user" in s && s["user"].Objeto? ==> r == Some(s["user"].campos)
    ensures r.None? <==> "user" in s && s["user"].Texto? && s["user"].s != ""
  {
    if "user" !in s then Some(map[])
    else if s["user"].Objeto? then Some(s["user"].campos)
    else if s["user"].s == "" then Some(map[])
    else None
  }

  /** `JSON.parse(localStorage.getItem("user") || "{}").id`: the stored user's id, if any. */
  function UsuarioId(s: Almacen): (r: Option<int>)
    ensures r.Some? ==> "user" in s && s["user"].Objeto? && "id" in s["user"].campos
    ensures "user" in s && s["user"].Objeto? && "id" in s["user"].campos ==> r == ParseInt(s["user"].campos["id"])
  {
    if "user" in s && s["user"].Objeto? && "id" in s["user"].campos then ParseInt(s["user"].campos["id"])
    else None
  }

  /** `if (!userId)`: a missing id and the id `0` are both falsy. */
  predicate IdPresente(id: Option<int>)
  {
    id.Some? && id.value != 0
  }
}
