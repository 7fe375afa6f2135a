/**
 * The login screen of `components/Login.jsx`: how the user's type is resolved from a series of
 * probe requests, where each type is sent, what a successful login stores, and what a failed
 * one removes and reports. Every response is an input; a probe whose request failed is `None`.
 */
module Login {
  import opened Wrappers
  import opened Seqs
  import opened Text
  import opened Sesion
  import Api
  import Rutas

  /** A user as `/api/auth/usuarios/` lists it; `rol` is the role's id. */
  datatype UsuarioApi = UsuarioApi(id: int, username: string, email: string, telefono: string, rol: Option<int>)

  datatype RolApi = RolApi(id: int, name: string)

  /**
   * The outcome of each probe. A profile list gives each record's `usuario` key; `usuarios` is
   * the length of the user list fetched after a successful categories probe.
   */
  datatype Sondas = Sondas(
    clientes: Option<seq<Option<int>>>,
    empleados: Option<seq<Option<int>>>,
    proveedores: Option<seq<Option<int>>>,
    categorias: bool,
    usuarios: Option<nat>,
    roles: Option<seq<RolApi>>)

  /** The probe succeeded and some record's `usuario` is the user's id. */
  predicate TienePerfil(lista: Option<seq<Option<int>>>, id: int)
  {
    lista.Some? && Some(id) in lista.value
  }

  predicate EsAdministrador(so: Sondas)
  {
    so.categorias && so.usuarios.Some? && so.usuarios.value > 0
  }

  predicate MismoId(rolId: int, r: RolApi)
  {
    r.id == rolId
  }

  /** Strategy 5: the lower-cased name of the user's role, or "cliente" when it cannot be found. */
  function PorRol(u: UsuarioApi, roles: Option<seq<RolApi>>): (t: string)
    ensures t == "cliente" || (roles.Some? && exists r :: r in roles.value && t == ToLower(r.name))
  {
    if u.rol.Some? && u.rol.value != 0 && roles.Some? then
      match Find(roles.value, r => MismoId(u.rol.value, r))
      case Some(r) => ToLower(r.name)
      case None => "cliente"
    else "cliente"
  }

  /** `determineUserType`: the probes in order, each failure falling through to the next. */
  function DeterminarTipo(u: UsuarioApi, so: Sondas): (t: string)
    ensures t in {"cliente", "empleado", "proveedor", "administrador"} ||
      (so.roles.Some? && exists r :: r in so.roles.value && t == ToLower(r.name))
  {
    if TienePerfil(so.clientes, u.id) then "cliente"
    else if TienePerfil(so.empleados, u.id) then "empleado"
    else if TienePerfil(so.proveedores, u.id) then "proveedor"
    else if EsAdministrador(so) then "administrador"
    else PorRol(u, so.roles)
  }

  /** The first profile list holding the user decides; later probes are not consulted. */
  lemma PrimerPerfilGana(u: UsuarioApi, so: Sondas)
    ensures TienePerfil(so.clientes, u.id) ==> DeterminarTipo(u, so) == "cliente"
    ensures !TienePerfil(so.clientes, u.id) && TienePerfil(so.empleados, u.id) ==> DeterminarTipo(u, so) == "empleado"
    ensures !TienePerfil(so.clientes, u.id) && !TienePerfil(so.empleados, u.id) && TienePerfil(so.proveedores, u.id) ==>
      DeterminarTipo(u, so) == "proveedor"
  {
  }

  /** A failed probe behaves exactly like one that found nothing: it never aborts the resolution. */
  lemma FalloComoVacio(u: UsuarioApi, so: Sondas)
    ensures so.clientes.None? ==> DeterminarTipo(u, so) == DeterminarTipo(u, so.(clientes := Some([])))
    ensures so.empleados.None? ==> DeterminarTipo(u, so) == DeterminarTipo(u, so.(empleados := Some([])))
    ensures so.proveedores.None? ==> DeterminarTipo(u, so) == DeterminarTipo(u, so.(proveedores := Some([])))
    ensures so.roles.None? ==> DeterminarTipo(u, so) == DeterminarTipo(u, so.(roles := Some([])))
  {
    if so.roles.None? && u.rol.Some? && u.rol.value != 0 {
      assert Find([], r => MismoId(u.rol.value, r)) == None;
    }
  }

  /**
   * Without a profile match, the administrator probe decides when it succeeds with a non-empty
   * user list; otherwise the result is the role's lower-cased name or "cliente".
   */
  lemma SinPerfil(u: UsuarioApi, so: Sondas)
    requires !TienePerfil(so.clientes, u.id) && !TienePerfil(so.empleados, u.id) && !TienePerfil(so.proveedores, u.id)
    ensures EsAdministrador(so) ==> DeterminarTipo(u, so) == "administrador"
    ensures !EsAdministrador(so) ==> DeterminarTipo(u, so) == PorRol(u, so.roles)
    ensures !EsAdministrador(so) && (u.rol.None? || u.rol.value == 0) ==> DeterminarTipo(u, so) == "cliente"
  {
  }

  /** The resolved type is always in lower case. */
  lemma TipoEnMinusculas(u: UsuarioApi, so: Sondas)
    ensures ToLower(DeterminarTipo(u, so)) == DeterminarTipo(u, so)
  {
    var t := DeterminarTipo(u, so);
    if t == "cliente" {
      ToLowerSinCapitales("cliente");
    } else if t == "empleado" {
      ToLowerSinCapitales("empleado");
    } else if t == "proveedor" {
      ToLowerSinCapitales("proveedor");
    } else if t == "administrador" {
      ToLowerSinCapitales("administrador");
    } else {
      var r :| r in so.roles.value && t == ToLower(r.name);
      ToLowerIdempotent(r.name);
    }
  }

  /** `redirectUser`'s table, for an already normalised type. */
  function RutaDeNormalizado(t: string): (ruta: string)
    ensures t == "administrador" <==> ruta == "/admin"
    ensures t == "empleado" <==> ruta == "/empleado"
    ensures t == "proveedor" <==> ruta == "/proveedor"
    ensures t !in {"administrador", "empleado", "proveedor"} <==> ruta == "/cliente"
  {
    if t == "administrador" then "/admin"
    else if t == "empleado" then "/empleado"
    else if t == "cliente" then "/cliente"
    else if t == "proveedor" then "/proveedor"
    else "/cliente"
  }

  /** `redirectUser`: the type is lower-cased and trimmed before the lookup. */
  function RutaDe(tipo: string): (ruta: string)
    ensures ruta in {"/admin", "/empleado", "/proveedor", "/cliente"}
    ensures ruta == "/admin" <==> Trim(ToLower(tipo)) == "administrador"
    ensures ruta == "/cliente" <==> Trim(ToLower(tipo)) !in {"administrador", "empleado", "proveedor"}
  {
    RutaDeNormalizado(Trim(ToLower(tipo)))
  }

  /** The target does not depend on letter case or on white space around the type. */
  lemma RutaIgnoraMayusculasYEspacios(p: string, tipo: string, q: string)
    requires TodoEspacio(p) && TodoEspacio(q)
    ensures RutaDe(p + tipo + q) == RutaDe(tipo)
    ensures RutaDe(ToLower(tipo)) == RutaDe(tipo)
  {
    ToLowerAppend(p + tipo, q);
    ToLowerAppend(p, tipo);
    ToLowerEspacios(p);
    ToLowerEspacios(q);
    TrimRodeado(p, ToLower(tipo), q);
    ToLowerIdempotent(tipo);
  }

  /** A supplier is sent to /proveedor, which no route declares, so it ends on /login. */
  lemma ProveedorTerminaEnLogin()
    ensures RutaDe("proveedor") == "/proveedor"
    ensures Rutas.Buscar(RutaDe("proveedor")) == Rutas.Navegar("/login")
  {
    ProveedorNormalizado();
    assert RutaDe("proveedor") == RutaDeNormalizado("proveedor");
    Rutas.ProveedorALogin();
  }

  lemma ProveedorNormalizado()
    ensures Trim(ToLower("proveedor")) == "proveedor"
  {
    ProveedorEnMinusculas();
    ProveedorSinEspacios();
  }

  lemma ProveedorEnMinusculas()
    ensures ToLower("proveedor") == "proveedor"
  {
    var t := "proveedor";
    assert forall i :: 0 <= i < |t| ==> 'a' <= t[i] <= 'z';
    ToLowerSinCapitales(t);
  }

  lemma ProveedorSinEspacios()
    ensures Trim("proveedor") == "proveedor"
  {
    var t := "proveedor";
    assert t[0] == 'p' && t[|t| - 1] == 'r';
    TrimNoSpace(t);
  }

  predicate ConNombre(username: string, v: UsuarioApi)
  {
    v.username == username
  }

  /** The JSON text `JSON.stringify` writes for a `null` field. */
  const Nulo: string := "null"

  /** The stored `user` object; a user without a role keeps `rol_id` as `null`. */
  function DatosUsuario(u: UsuarioApi, tipo: string): (m: map<string, string>)
    ensures m.Keys == {"id", "username", "email", "telefono", "rol", "rol_id"}
    ensures m["rol"] == tipo && m["id"] == IntToString(u.id) && m["username"] == u.username
    ensures m["email"] == u.email && m["telefono"] == u.telefono
    ensures m["rol_id"] == if u.rol.Some? then IntToString(u.rol.value) else Nulo
  {
    map[]["id" := IntToString(u.id)]["username" := u.username]["email" := u.email]
         ["telefono" := u.telefono]["rol" := tipo]
         ["rol_id" := if u.rol.Some? then IntToString(u.rol.value) else Nulo]
  }

  /** The six keys a successful login writes; every other key is left alone. */
  function Guardar(s: Almacen, access: string, refresh: Option<string>, u: UsuarioApi, tipo: string): (r: Almacen)
    ensures forall k :: k !in {"access", "refresh", "user", "rol", "username", "user_id"} ==>
      (k in r <==> k in s) && (k in s ==> r[k] == s[k])
    ensures Leer(r, "access") == Some(access) && Leer(r, "rol") == Some(tipo) && Leer(r, "username") == Some(u.username)
    ensures Leer(r, "refresh") == Some(if Presente(refresh) then refresh.value else "")
    ensures Leer(r, "user_id") == Some(IntToString(u.id))
    ensures "user" in r && r["user"] == Objeto(DatosUsuario(u, tipo))
  {
    s["access" := Texto(access)]
     ["refresh" := Texto(if Presente(refresh) then refresh.value else "")]
     ["user" := Objeto(DatosUsuario(u, tipo))]
     ["rol" := Texto(tipo)]
     ["username" := Texto(u.username)]
     ["user_id" := Texto(IntToString(u.id))]
  }

  /** What a login attempt ends with: the store, the page navigated to, and the error shown. */
  datatype Resultado = Resultado(almacen: Almacen, ruta: Option<string>, error: Option<Aviso>)

  /**
   * `handleSubmit`, given the token response, the user list and the probes. A missing access
   * token and a username absent from the list are errors thrown by the screen itself.
   */
  function Enviar(
    s: Almacen, tokens: Result<(Option<string>, Option<string>), Error>,
    usuarios: Result<seq<UsuarioApi>, Error>, username: string, so: Sondas): (r: Resultado)
    ensures r.error.None? <==> r.ruta.Some?
    ensures r.error.None? <==>
      tokens.Ok? && Presente(tokens.value.0) && usuarios.Ok? && exists v :: v in usuarios.value && v.username == username
    ensures r.error.Some? ==> forall k :: k in r.almacen <==> k in s && k !in ClavesSesion
  {
    if tokens.Err? then Fallar(s, tokens.error)
    else
      var (access, refresh) := tokens.value;
      if !Presente(access) then Fallar(s, Error(None, None, "No se recibió token de acceso"))
      else if usuarios.Err? then Fallar(s, usuarios.error)
      else
        match Find(usuarios.value, v => ConNombre(username, v))
        case None => Fallar(s, Error(None, None, "No se pudo encontrar la información del usuario"))
        case Some(u) =>
          var tipo := DeterminarTipo(u, so);
          Resultado(Guardar(s, access.value, refresh, u, tipo), Some(RutaDe(tipo)), None)
  }

  /** A successful login stores the resolved type both under `rol` and inside `user`. */
  lemma ExitoGuardaTipo(
    s: Almacen, tokens: Result<(Option<string>, Option<string>), Error>,
    usuarios: Result<seq<UsuarioApi>, Error>, username: string, so: Sondas)
    requires Enviar(s, tokens, usuarios, username, so).error.None?
    ensures var r := Enviar(s, tokens, usuarios, username, so);
      tokens.Ok? && Presente(tokens.value.0) && usuarios.Ok? &&
      exists u :: u in usuarios.value && u.username == username &&
        r.almacen["rol"] == Texto(DeterminarTipo(u, so)) &&
        r.almacen["user"] == Objeto(DatosUsuario(u, DeterminarTipo(u, so))) &&
        r.almacen["user"].campos["rol"] == DeterminarTipo(u, so) &&
        r.almacen["access"] == Texto(tokens.value.0.value) &&
        r.ruta == Some(RutaDe(DeterminarTipo(u, so)))
  {
    assert tokens.Ok?;
    var (access, refresh) := tokens.value;
    assert Presente(access) && usuarios.Ok?;
    var f := Find(usuarios.value, v => ConNombre(username, v));
    assert f.Some?;
    var u := f.value;
    assert u in usuarios.value && u.username == username;
    var tipo := DeterminarTipo(u, so);
    var r := Enviar(s, tokens, usuarios, username, so);
    assert r == Resultado(Guardar(s, access.value, refresh, u, tipo), Some(RutaDe(tipo)), None);
    GuardarEscribe(s, access.value, refresh, u, tipo);
  }

  /** The keys a successful login reads back. */
  lemma GuardarEscribe(s: Almacen, access: string, refresh: Option<string>, u: UsuarioApi, tipo: string)
    ensures var g := Guardar(s, access, refresh, u, tipo);
      "rol" in g && "user" in g && "access" in g &&
      g["rol"] == Texto(tipo) && g["user"] == Objeto(DatosUsuario(u, tipo)) && g["access"] == Texto(access)
  {
    assert "user" != "rol" && "username" != "rol" && "user_id" != "rol";
    assert "username" != "user" && "user_id" != "user" && "rol" != "user";
    assert "refresh" != "access" && "user" != "access" && "rol" != "access" && "username" != "access" && "user_id" != "access";
  }

  /** A response without an access token fails and removes the session keys. */
  lemma SinAccessFalla(s: Almacen, refresh: Option<string>, usuarios: Result<seq<UsuarioApi>, Error>,
    username: string, so: Sondas)
    ensures var r := Enviar(s, Ok((None, refresh)), usuarios, username, so);
      r.error.Some? && r.ruta.None? && forall k :: k in ClavesSesion ==> k !in r.almacen
  {
  }

  /** A JavaScript error: the response it carries, its `code` and its `message` ("" when absent). */
  datatype Error = Error(response: Option<Api.Respuesta>, code: Option<string>, message: string)

  /** The messages `handleLoginError` can show, one per branch. */
  datatype Aviso =
    Credenciales | Formato | SinPermiso | ErrorServidor | OtroEstado(status: Option<int>, detalle: string) |
    SinRespuesta | SinRed | Mensaje(texto: string) | Inesperado

  /** `${status}` in a template: a number, or "undefined" for a response without status. */
  function EstadoTexto(status: Option<int>): string
  {
    if status.Some? then IntToString(status.value) else "undefined"
  }

  /** The text shown for each message (without the leading emoji). */
  function TextoAviso(a: Aviso): string
  {
    match a
    case Credenciales => "Usuario o contraseña incorrectos"
    case Formato => "Datos de login inválidos. Verifique el formato."
    case SinPermiso => "Acceso denegado. No tiene permisos para acceder."
    case ErrorServidor => "Error interno del servidor. Intente más tarde."
    case OtroEstado(st, d) => "Error " + EstadoTexto(st) + ": " + d
    case SinRespuesta => "El servidor no responde. Verifique su conexión."
    case SinRed => "Error de conexión. Verifique su internet y que el servidor esté activo."
    case Mensaje(m) => m
    case Inesperado => "Error inesperado durante el login"
  }

  /** The message `handleLoginError` picks: by status when there is a response, else by code and message. */
  function MensajeError(e: Error): (a: Aviso)
    ensures e.response.Some? ==> (a in {Credenciales, Formato, SinPermiso, ErrorServidor} || a.OtroEstado?)
    ensures e.response.None? ==> !(a in {Credenciales, Formato, SinPermiso, ErrorServidor} || a.OtroEstado?)
    ensures a.OtroEstado? <==>
      e.response.Some? && e.response.value.status !in {Some(401), Some(400), Some(403), Some(500)}
    ensures a.OtroEstado? ==>
      var d := Api.Valor(e.response.value, "detail");
      a.status == e.response.value.status &&
      (Api.Verdadero(d) ==> a.detalle == Api.EnPlantilla(d.value)) &&
      (!Api.Verdadero(d) ==> a.detalle == "Error de autenticación")
  {
    if e.response.Some? then
      var st := e.response.value.status;
      if st == Some(401) then Credenciales
      else if st == Some(400) then Formato
      else if st == Some(403) then SinPermiso
      else if st == Some(500) then ErrorServidor
      else
        var d := Api.Valor(e.response.value, "detail");
        OtroEstado(st, if Api.Verdadero(d) then Api.EnPlantilla(d.value) else "Error de autenticación")
    else if e.code == Some("ECONNABORTED") then SinRespuesta
    else if Contains(e.message, "Network Error") then SinRed
    else if e.message != "" then Mensaje(e.message)
    else Inesperado
  }

  /** `handleLoginError`: four keys go (username and user_id stay) and a message is shown. */
  function Fallar(s: Almacen, e: Error): (r: Resultado)
    ensures forall k :: k in r.almacen <==> k in s && k !in ClavesSesion
    ensures "username" in s ==> r.almacen["username"] == s["username"]
    ensures "user_id" in s ==> r.almacen["user_id"] == s["user_id"]
    ensures r.ruta.None? && r.error == Some(MensajeError(e))
  {
    Resultado(Quitar(s, ClavesSesion), None, Some(MensajeError(e)))
  }

  /** The four statuses with their own message get four different messages. */
  lemma MensajesDistintos(r1: Api.Respuesta, r2: Api.Respuesta, c: Option<string>, m: string)
    requires r1.status in {Some(401), Some(400), Some(403), Some(500)}
    requires r2.status in {Some(401), Some(400), Some(403), Some(500)}
    requires r1.status != r2.status
    ensures MensajeError(Error(Some(r1), c, m)) != MensajeError(Error(Some(r2), c, m))
    ensures MensajeError(Error(Some(r1), c, m)) == MensajeError(Error(Some(r1), None, ""))
  {
  }

  /**
   * A timeout that went through the error interceptor already carries a response without a
   * status, so the screen shows the interceptor's detail and never its own timeout message.
   */
  lemma TimeoutInterceptado(resp: Option<Api.Respuesta>, m: string)
    ensures var e := Error(Api.Normalizada(resp, Some("ECONNABORTED"), m), Some("ECONNABORTED"), m);
      MensajeError(e) == OtroEstado(None, Api.MensajeTimeout) &&
      MensajeError(e) != SinRespuesta
  {
    Api.TimeoutGana(resp, m);
    assert Api.Valor(Api.SoloDetalle(Api.MensajeTimeout), "detail") == Some(Api.Cadena(Api.MensajeTimeout));
  }
}
