/**
 * The client's profile screen: the profile built from the backend's user record, or from the
 * stored user when the backend cannot be read; the edit form; saving, which writes the backend
 * first and only then the stored user and the profile; cancelling; and signing out.
 */
module PerfilCliente {
  import opened Wrappers
  import opened Text
  import opened Sesion
  import Login

  const NoEspecificado: string := "No especificado"
  const NoDisponible: string := "No disponible"
  const ErrorCarga: string := "No se pudo cargar la información del perfil"
  const ErrorGuardar: string := "No se pudo conectar con el servidor para guardar los cambios"
  const Guardado: string := "✅ Perfil actualizado exitosamente"
  /** Stands for the parser's own message when the stored user is not an object. */
  const ErrorLectura: string := "SyntaxError"

  /** The user record `GET /api/auth/usuarios/<id>/` returns; `None` is an absent field. */
  datatype UsuarioBackend = UsuarioBackend(
    id: Option<string>, firstName: Option<string>, username: Option<string>,
    email: Option<string>, telefono: Option<string>, dateJoined: Option<string>)

  datatype Perfil = Perfil(
    id: Option<string>, nombre: string, correo: string, telefono: string,
    username: Option<string>, fechaRegistro: Option<string>)

  /** The edit form's three fields. */
  datatype FormPerfil = FormPerfil(nombre: string, correo: string, telefono: string)

  /** `a || b`: the first text when it is truthy. */
  function O(a: Option<string>, b: string): (r: string)
    ensures Presente(a) ==> r == a.value
    ensures !Presente(a) ==> r == b
  {
    if Presente(a) then a.value else b
  }

  /** A field of a parsed object. */
  function Campo(m: map<string, string>, k: string): (r: Option<string>)
    ensures r.Some? <==> k in m
  {
    if k in m then Some(m[k]) else None
  }

  /** The profile from the backend's record: name, then username, then "No especificado". */
  function DesdeBackend(u: UsuarioBackend): (p: Perfil)
    ensures Presente(u.firstName) ==> p.nombre == u.firstName.value
    ensures !Presente(u.firstName) && Presente(u.username) ==> p.nombre == u.username.value
    ensures !Presente(u.firstName) && !Presente(u.username) ==> p.nombre == NoEspecificado
    ensures p.correo == (if Presente(u.email) then u.email.value else NoEspecificado)
    ensures p.telefono == (if Presente(u.telefono) then u.telefono.value else NoEspecificado)
    ensures p.id == u.id && p.username == u.username && p.fechaRegistro == u.dateJoined
  {
    Perfil(u.id, O(u.firstName, O(u.username, NoEspecificado)), O(u.email, NoEspecificado),
           O(u.telefono, NoEspecificado), u.username, u.dateJoined)
  }

  /** The fallback profile from the stored user, with the registration date "No disponible". */
  function DesdeAlmacen(m: map<string, string>): (p: Perfil)
    ensures p.fechaRegistro == Some(NoDisponible)
    ensures p == DesdeBackend(UsuarioBackend(Campo(m, "id"), Campo(m, "first_name"), Campo(m, "username"),
                                             Campo(m, "email"), Campo(m, "telefono"), None)).(fechaRegistro := Some(NoDisponible))
  {
    Perfil(Campo(m, "id"), O(Campo(m, "first_name"), O(Campo(m, "username"), NoEspecificado)),
           O(Campo(m, "email"), NoEspecificado), O(Campo(m, "telefono"), NoEspecificado),
           Campo(m, "username"), Some(NoDisponible))
  }

  /**
   * `cargarPerfil`, given the backend's answer (`None` when the read fails): an error without a
   * stored user id, otherwise the backend's profile or the stored fallback.
   */
  function Cargado(s: Almacen, backend: Option<UsuarioBackend>): (r: Result<Perfil, string>)
    ensures r.Err? <==> !IdPresente(UsuarioId(s))
    ensures r.Err? ==> r.error == ErrorCarga
    ensures r.Ok? && backend.Some? ==> r.value == DesdeBackend(backend.value)
    ensures r.Ok? && backend.None? ==> r.value == DesdeAlmacen(s["user"].campos)
  {
    if !IdPresente(UsuarioId(s)) then Err(ErrorCarga)
    else if backend.Some? then Ok(DesdeBackend(backend.value))
    else Ok(DesdeAlmacen(s["user"].campos))
  }

  /** The form filled from a profile. */
  function FormDe(p: Perfil): FormPerfil
  {
    FormPerfil(p.nombre, p.correo, p.telefono)
  }

  /** `updateData`: the form under the backend's field names. */
  function CuerpoDe(f: FormPerfil): (m: map<string, string>)
    ensures m.Keys == {"first_name", "email", "telefono"}
    ensures m["first_name"] == f.nombre && m["email"] == f.correo && m["telefono"] == f.telefono
  {
    map["first_name" := f.nombre, "email" := f.correo, "telefono" := f.telefono]
  }

  /** `{...perfil, ...formData}`. */
  function ConForm(p: Perfil, f: FormPerfil): (q: Perfil)
    ensures FormDe(q) == f
    ensures q.id == p.id && q.username == p.username && q.fechaRegistro == p.fechaRegistro
  {
    p.(nombre := f.nombre, correo := f.correo, telefono := f.telefono)
  }

  /**
   * `actualizarLocalStorage`: the stored user with every named key overwritten and every other
   * key kept; a stored user that cannot be parsed is left alone, and so is the rest of the store.
   */
  function Fusionado(s: Almacen, nuevos: map<string, string>): (r: Almacen)
    ensures CamposUsuario(s).None? ==> r == s
    ensures forall k :: k != "user" ==> (k in r <==> k in s)
    ensures forall k :: k != "user" && k in s ==> r[k] == s[k]
    ensures CamposUsuario(s).Some? ==> "user" in r && r["user"].Objeto?
    ensures CamposUsuario(s).Some? ==>
      (var antes, despues := CamposUsuario(s).value, r["user"].campos;
       (forall k :: k in despues <==> k in antes || k in nuevos) &&
       (forall k :: k in nuevos ==> despues[k] == nuevos[k]) &&
       (forall k :: k in antes && k !in nuevos ==> despues[k] == antes[k]))
  {
    match CamposUsuario(s)
    case None => s
    case Some(m) => s["user" := Objeto(m + nuevos)]
  }

  /** The `id` written into the PATCH path; an absent id is written "undefined". */
  function IdTexto(m: map<string, string>): string
  {
    if "id" in m then m["id"] else "undefined"
  }

  class Pantalla {
    var almacen: Almacen
    var perfil: Option<Perfil>
    var form: FormPerfil
    var editando: bool
    var error: string
    var exito: string

    constructor (s: Almacen)
      ensures almacen == s && perfil.None? && form == FormPerfil("", "", "")
      ensures !editando && error == "" && exito == ""
    {
      almacen, perfil, form := s, None, FormPerfil("", "", "");
      editando, error, exito := false, "", "";
    }

    /** `cargarPerfil`. */
    method CargarPerfil(backend: Option<UsuarioBackend>)
      modifies this
      ensures var c := Cargado(old(almacen), backend);
        if c.Ok? then perfil == Some(c.value) && form == FormDe(c.value) && error == old(error)
        else perfil == old(perfil) && form == old(form) && error == c.error
      ensures almacen == old(almacen) && editando == old(editando) && exito == old(exito)
    {
      var c := Cargado(almacen, backend);
      match c
      case Ok(p) =>
        perfil := Some(p);
        form := FormDe(p);
      case Err(e) =>
        error := e;
    }

    /** `actualizarLocalStorage`. */
    method ActualizarAlmacen(nuevos: map<string, string>)
      modifies this
      ensures almacen == Fusionado(old(almacen), nuevos)
      ensures perfil == old(perfil) && form == old(form) && editando == old(editando)
      ensures error == old(error) && exito == old(exito)
    {
      var campos := CamposUsuario(almacen);
      if campos.Some? {
        almacen := almacen["user" := Objeto(campos.value + nuevos)];
      }
    }

    /**
     * `guardarCambios`, given whether the PATCH succeeds. It returns the request made (path and
     * body), if any. Nothing but the messages changes unless the PATCH succeeds.
     */
    method GuardarCambios(patchOk: bool) returns (peticion: Option<(string, map<string, string>)>)
      requires perfil.Some?
      modifies this
      ensures CamposUsuario(old(almacen)).None? ==>
        peticion.None? && error == ErrorLectura && exito == "" &&
        almacen == old(almacen) && perfil == old(perfil) && editando == old(editando)
      ensures CamposUsuario(old(almacen)).Some? ==>
        peticion == Some(("/api/auth/usuarios/" + IdTexto(CamposUsuario(old(almacen)).value) + "/", CuerpoDe(old(form))))
      ensures CamposUsuario(old(almacen)).Some? && !patchOk ==>
        error == ErrorGuardar && exito == "" &&
        almacen == old(almacen) && perfil == old(perfil) && editando == old(editando)
      ensures CamposUsuario(old(almacen)).Some? && patchOk ==>
        error == "" && exito == Guardado && !editando &&
        almacen == Fusionado(old(almacen), CuerpoDe(old(form))) &&
        perfil == Some(ConForm(old(perfil).value, old(form)))
      ensures form == old(form)
    {
      error, exito := "", "";
      var campos := CamposUsuario(almacen);
      if campos.None? {
        error := ErrorLectura;
        return None;
      }
      var cuerpo := CuerpoDe(form);
      peticion := Some(("/api/auth/usuarios/" + IdTexto(campos.value) + "/", cuerpo));
      if !patchOk {
        error := ErrorGuardar;
        return;
      }
      ActualizarAlmacen(cuerpo);
      perfil := Some(ConForm(perfil.value, form));
      editando := false;
      exito := Guardado;
    }

    /** `cancelarEdicion`: the form back from the profile, editing off, both messages cleared. */
    method CancelarEdicion()
      requires perfil.Some?
      modifies this
      ensures perfil.Some? && form == FormDe(perfil.value) && !editando && error == "" && exito == ""
      ensures almacen == old(almacen) && perfil == old(perfil)
    {
      form := FormDe(perfil.value);
      editando, error, exito := false, "", "";
    }

    /** `cerrarSesion`: the whole store is cleared and the login follows. */
    method CerrarSesion() returns (ruta: string)
      modifies this
      ensures almacen == Vacio && ruta == "/login"
      ensures perfil == old(perfil) && form == old(form) && editando == old(editando)
      ensures error == old(error) && exito == old(exito)
    {
      almacen := Vacio;
      ruta := "/login";
    }
  }

  /** Cancelling right after a successful save leaves the form as it was saved. */
  lemma CancelarTrasGuardar(p: Perfil, f: FormPerfil)
    ensures FormDe(ConForm(p, f)) == f
  {
  }

  /**
   * Saving and then reloading while the backend is down shows what was saved (the fallbacks
   * apply to fields saved empty): the merge kept the stored id and wrote the three fields.
   */
  lemma {:induction false} RecargaTrasGuardar(s: Almacen, f: FormPerfil)
    requires IdPresente(UsuarioId(s))
    ensures var c := Cargado(Fusionado(s, CuerpoDe(f)), None);
      c.Ok? &&
      c.value.nombre == (if f.nombre != "" then f.nombre
                         else O(Campo(s["user"].campos, "username"), NoEspecificado)) &&
      c.value.correo == (if f.correo != "" then f.correo else NoEspecificado) &&
      c.value.telefono == (if f.telefono != "" then f.telefono else NoEspecificado) &&
      c.value.id == Campo(s["user"].campos, "id")
  {
    var m := s["user"].campos;
    var s2 := Fusionado(s, CuerpoDe(f));
    assert s2["user"].campos == m + CuerpoDe(f);
    assert UsuarioId(s2) == UsuarioId(s);
  }

  /**
   * Right after a login, with the backend down, the profile's name is the username (or
   * "No especificado" when it is empty): the stored user has no first name.
   */
  lemma TrasLoginSinServidor(s: Almacen, access: string, refresh: Option<string>, u: Login.UsuarioApi, tipo: string)
    requires u.id != 0
    ensures var c := Cargado(Login.Guardar(s, access, refresh, u, tipo), None);
      c.Ok? && c.value.nombre == (if u.username != "" then u.username else NoEspecificado) &&
      c.value.fechaRegistro == Some(NoDisponible)
  {
    var s2 := Login.Guardar(s, access, refresh, u, tipo);
    var m := Login.DatosUsuario(u, tipo);
    assert s2["user"] == Objeto(m);
    assert "first_name" !in m;
    ParseIntOfIntToString(u.id);
    assert UsuarioId(s2) == Some(u.id);
  }
}
