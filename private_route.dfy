/**
 * The route guard of `router/PrivateRoute.jsx`: it reads the stored token and role, checks the
 * token's expiry and the role against the allowed ones, and either renders the protected page
 * or navigates elsewhere, clearing the whole store on the expired and undecodable paths.
 */
module RutaPrivada {
  import opened Wrappers
  import opened Text
  import opened Sesion

  /** `rolPermitido`: one role or a list of roles. */
  datatype RolPermitido = Uno(rol: string) | Varios(roles: seq<string>)

  datatype Decision = Mostrar | Redirigir(ruta: string, limpiar: bool)

  /** A single role is treated as the list holding only it. */
  function ComoLista(rp: RolPermitido): (rs: seq<string>)
    ensures rp.Uno? ==> rs == [rp.rol]
    ensures rp.Varios? ==> rs == rp.roles
  {
    match rp
    case Uno(r) => [r]
    case Varios(rs) => rs
  }

  /** `Date.now() >= payload.exp * 1000`; with no `exp` the product is `NaN` and the test is false. */
  predicate Expirado(c: Carga, ahora: int)
  {
    c.exp.Some? && ahora >= c.exp.value * 1000
  }

  /** The stored role, lower-cased (`getItem("rol")?.toLowerCase()`). */
  function RolGuardado(s: Almacen): Option<string>
  {
    match Leer(s, "rol")
    case Some(r) => Some(ToLower(r))
    case None => None
  }

  /** Where a user whose role is not allowed is sent. */
  function Tablero(rol: string): (ruta: string)
    ensures ruta in {"/admin", "/empleado", "/cliente", "/login"}
  {
    if rol == "administrador" then "/admin"
    else if rol == "empleado" then "/empleado"
    else if rol == "cliente" then "/cliente"
    else "/login"
  }

  /** Some allowed role equals the stored one once lower-cased. */
  predicate RolAdmitido(rp: RolPermitido, rol: string)
  {
    exists i :: 0 <= i < |ComoLista(rp)| && ToLower(ComoLista(rp)[i]) == rol
  }

  /**
   * The decision for the stored items `s`, the token's decoded payload `carga` and the current
   * time `ahora` in milliseconds.
   */
  function Guardia(s: Almacen, carga: Option<Carga>, ahora: int, rp: RolPermitido): (d: Decision)
    ensures d == Mostrar <==>
      Presente(Leer(s, "access")) && carga.Some? && !Expirado(carga.value, ahora) &&
      Presente(RolGuardado(s)) && RolAdmitido(rp, RolGuardado(s).value)
    ensures d.Redirigir? && d.limpiar <==> Presente(Leer(s, "access")) && (carga.None? || Expirado(carga.value, ahora))
  {
    if !Presente(Leer(s, "access")) then Redirigir("/login", false)
    else if carga.None? || Expirado(carga.value, ahora) then Redirigir("/login", true)
    else if !Presente(RolGuardado(s)) then Redirigir("/login", false)
    else if !RolAdmitido(rp, RolGuardado(s).value) then Redirigir(Tablero(RolGuardado(s).value), false)
    else Mostrar
  }

  /** Without a stored token the page is not shown and the user is sent to /login. */
  lemma SinToken(s: Almacen, carga: Option<Carga>, ahora: int, rp: RolPermitido)
    requires !Presente(Leer(s, "access"))
    ensures Guardia(s, carga, ahora, rp) == Redirigir("/login", false)
  {
  }

  /** An expired token clears the store and sends the user to /login. */
  lemma TokenExpirado(s: Almacen, c: Carga, ahora: int, rp: RolPermitido)
    requires Presente(Leer(s, "access")) && c.exp.Some? && ahora >= c.exp.value * 1000
    ensures Guardia(s, Some(c), ahora, rp) == Redirigir("/login", true)
  {
  }

  /** A token whose payload cannot be decoded clears the store and sends the user to /login. */
  lemma TokenIlegible(s: Almacen, ahora: int, rp: RolPermitido)
    requires Presente(Leer(s, "access"))
    ensures Guardia(s, None, ahora, rp) == Redirigir("/login", true)
  {
  }

  /** A live token without a stored role sends the user to /login and keeps the store. */
  lemma SinRol(s: Almacen, c: Carga, ahora: int, rp: RolPermitido)
    requires Presente(Leer(s, "access")) && !Expirado(c, ahora) && !Presente(Leer(s, "rol"))
    ensures Guardia(s, Some(c), ahora, rp) == Redirigir("/login", false)
  {
  }

  /** Naming one role behaves exactly as a list holding only that role. */
  lemma UnoComoLista(s: Almacen, carga: Option<Carga>, ahora: int, r: string)
    ensures Guardia(s, carga, ahora, Uno(r)) == Guardia(s, carga, ahora, Varios([r]))
  {
    assert ComoLista(Uno(r)) == ComoLista(Varios([r]));
    assert forall x :: RolAdmitido(Uno(r), x) == RolAdmitido(Varios([r]), x);
  }

  /**
   * The page is shown iff the token is present, decodable and unexpired, a role is stored, and
   * that role equals some allowed role compared case-insensitively.
   */
  lemma MostrarSii(s: Almacen, carga: Option<Carga>, ahora: int, rp: RolPermitido)
    ensures Guardia(s, carga, ahora, rp) == Mostrar <==>
      Presente(Leer(s, "access")) && carga.Some? && !Expirado(carga.value, ahora) &&
      Presente(Leer(s, "rol")) &&
      exists r :: r in ComoLista(rp) && ToLower(r) == ToLower(Leer(s, "rol").value)
  {
    var rol := RolGuardado(s);
    if rol.Some? {
      assert RolAdmitido(rp, rol.value) <==> exists r :: r in ComoLista(rp) && ToLower(r) == rol.value;
    }
  }

  /** A refused role goes to its own dashboard; any other role, such as proveedor, to /login. */
  lemma DenegadoATablero(s: Almacen, c: Carga, ahora: int, rp: RolPermitido)
    requires Presente(Leer(s, "access")) && !Expirado(c, ahora) && Presente(RolGuardado(s))
    requires !RolAdmitido(rp, RolGuardado(s).value)
    ensures var rol := RolGuardado(s).value;
      Guardia(s, Some(c), ahora, rp) == Redirigir(Tablero(rol), false) &&
      (rol == "administrador" ==> Tablero(rol) == "/admin") &&
      (rol == "empleado" ==> Tablero(rol) == "/empleado") &&
      (rol == "cliente" ==> Tablero(rol) == "/cliente") &&
      (rol !in {"administrador", "empleado", "cliente"} ==> Tablero(rol) == "/login")
  {
  }

  /** The store is cleared only when a present token has expired or cannot be decoded. */
  lemma LimpiaSoloSi(s: Almacen, carga: Option<Carga>, ahora: int, rp: RolPermitido)
    ensures Guardia(s, carga, ahora, rp).Redirigir? && Guardia(s, carga, ahora, rp).limpiar <==>
      Presente(Leer(s, "access")) && (carga.None? || Expirado(carga.value, ahora))
  {
  }

  /** What the guard leaves in the store. */
  function AlmacenTras(s: Almacen, d: Decision): (r: Almacen)
    ensures d.Redirigir? && d.limpiar ==> r == Vacio
    ensures !(d.Redirigir? && d.limpiar) ==> r == s
  {
    if d.Redirigir? && d.limpiar then Vacio else s
  }
}
