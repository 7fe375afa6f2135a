/**
 * The sign-up screen: the two checks made before any request, the body posted to the user
 * collection, and the message `handleRegisterError` chooses for a failed request.
 */
module Register {
  import opened Wrappers
  import opened Text
  import Api
  import Login

  /** The form's five fields. */
  datatype Formulario = Formulario(
    firstName: string, email: string, telefono: string, username: string, password: string)

  const Vacio := Formulario("", "", "", "", "")

  /** The messages the screen can show, one per branch. */
  datatype Aviso =
    | ContrasenaCorta | CorreoInvalido
    | UsuarioExiste(username: string) | CorreoRegistrado(email: string) | TelefonoEnUso(telefono: string)
    | Contrasena(texto: string) | Configuracion | Detalle(texto: string) | PrimerError(texto: string)
    | SinRespuesta | SinRed | Otro(texto: string)

  /** The checks made before the request: the password length first, then the '@' in the email. */
  function Validar(f: Formulario): (r: Option<Aviso>)
    ensures r == Some(ContrasenaCorta) <==> |f.password| < 8
    ensures r == Some(CorreoInvalido) <==> |f.password| >= 8 && !Contains(f.email, "@")
    ensures r.None? <==> |f.password| >= 8 && Contains(f.email, "@")
  {
    if |f.password| < 8 then Some(ContrasenaCorta)
    else if !Contains(f.email, "@") then Some(CorreoInvalido)
    else None
  }

  /** The body posted to `/api/auth/usuarios/`: the form's fields, an empty last name, no role. */
  function Cuerpo(f: Formulario): (m: map<string, string>)
    ensures "rol" !in m
    ensures m.Keys == {"username", "password", "email", "telefono", "first_name", "last_name"}
    ensures m["last_name"] == ""
    ensures m["username"] == f.username && m["password"] == f.password && m["email"] == f.email
    ensures m["telefono"] == f.telefono && m["first_name"] == f.firstName
  {
    map["username" := f.username, "password" := f.password, "email" := f.email,
        "telefono" := f.telefono, "first_name" := f.firstName, "last_name" := ""]
  }

  /** `Array.isArray(x) ? x[0] : x` in a template: the first item ("undefined" for an empty array). */
  function Primero(d: Api.Dato): (t: string)
    ensures d.Cadena? ==> t == d.s
    ensures d.Varias? && d.items != [] ==> t == d.items[0]
  {
    match d
    case Cadena(s) => s
    case Varias(xs) => if xs != [] then xs[0] else "undefined"
  }

  /** The body carries a truthy value under `clave`. */
  predicate Nombrado(r: Api.Respuesta, clave: string)
  {
    Api.Verdadero(Api.Valor(r, clave))
  }

  /** The message for a response body: the named fields in their fixed order, then the first value. */
  function PorCuerpo(f: Formulario, r: Api.Respuesta): (a: Aviso)
    ensures Nombrado(r, "username") ==> a == UsuarioExiste(f.username)
    ensures !Nombrado(r, "username") && Nombrado(r, "email") ==> a == CorreoRegistrado(f.email)
    ensures !Nombrado(r, "username") && !Nombrado(r, "email") && Nombrado(r, "telefono") ==>
      a == TelefonoEnUso(f.telefono)
    ensures a.Contrasena? <==>
      !Nombrado(r, "username") && !Nombrado(r, "email") && !Nombrado(r, "telefono") && Nombrado(r, "password")
    ensures a == Configuracion <==>
      !Nombrado(r, "username") && !Nombrado(r, "email") && !Nombrado(r, "telefono") && !Nombrado(r, "password") &&
      Nombrado(r, "rol")
    ensures a.Detalle? || a.PrimerError? <==>
      !Nombrado(r, "username") && !Nombrado(r, "email") && !Nombrado(r, "telefono") && !Nombrado(r, "password") &&
      !Nombrado(r, "rol")
    ensures a.Detalle? <==>
      !Nombrado(r, "username") && !Nombrado(r, "email") && !Nombrado(r, "telefono") && !Nombrado(r, "password") &&
      !Nombrado(r, "rol") && Nombrado(r, "detail")
    ensures a.Detalle? ==> a.texto == Api.EnPlantilla(Api.Valor(r, "detail").value)
    ensures a.Contrasena? ==> a.texto == Primero(Api.Valor(r, "password").value)
    ensures a.PrimerError? && r.data != [] ==> a.texto == Primero(r.data[0].valor)
  {
    if Nombrado(r, "username") then UsuarioExiste(f.username)
    else if Nombrado(r, "email") then CorreoRegistrado(f.email)
    else if Nombrado(r, "telefono") then TelefonoEnUso(f.telefono)
    else if Nombrado(r, "password") then Contrasena(Primero(Api.Valor(r, "password").value))
    else if Nombrado(r, "rol") then Configuracion
    else if Nombrado(r, "detail") then Detalle(Api.EnPlantilla(Api.Valor(r, "detail").value))
    else PrimerError(if r.data != [] then Primero(r.data[0].valor) else "undefined")
  }

  /** `handleRegisterError`: by the response body when there is one, else by the error's code and message. */
  function MensajeError(f: Formulario, e: Login.Error): (a: Aviso)
    ensures e.response.Some? ==> a == PorCuerpo(f, e.response.value)
    ensures a == SinRespuesta <==> e.response.None? && e.code == Some("ECONNABORTED")
    ensures a == SinRed <==> e.response.None? && e.code != Some("ECONNABORTED") && Contains(e.message, "Network Error")
    ensures a.Otro? <==> e.response.None? && e.code != Some("ECONNABORTED") && !Contains(e.message, "Network Error")
    ensures a.Otro? ==> a.texto == if e.message != "" then e.message else "Error inesperado"
  {
    if e.response.Some? then PorCuerpo(f, e.response.value)
    else if e.code == Some("ECONNABORTED") then SinRespuesta
    else if Contains(e.message, "Network Error") then SinRed
    else Otro(if e.message != "" then e.message else "Error inesperado")
  }

  /** What a submit leaves: the form, the message, the body posted (if any) and the later redirect. */
  datatype Resultado = Resultado(
    form: Formulario, error: Option<Aviso>, exito: bool, enviado: Option<map<string, string>>, ruta: Option<string>)

  /**
   * `handleSubmit`, given the outcome of the post. A failed check posts nothing; a successful
   * post clears the form and leads to the login; a failed one keeps the form and shows a message.
   */
  function Enviar(f: Formulario, post: Result<(), Login.Error>): (r: Resultado)
    ensures Validar(f).Some? ==> r == Resultado(f, Validar(f), false, None, None)
    ensures Validar(f).None? ==> r.enviado == Some(Cuerpo(f))
    ensures Validar(f).None? && post.Ok? ==> r.form == Vacio && r.exito && r.error.None? && r.ruta == Some("/login")
    ensures Validar(f).None? && post.Err? ==>
      r.form == f && !r.exito && r.error == Some(MensajeError(f, post.error)) && r.ruta.None?
  {
    var v := Validar(f);
    if v.Some? then Resultado(f, v, false, None, None)
    else if post.Ok? then Resultado(Vacio, None, true, Some(Cuerpo(f)), Some("/login"))
    else Resultado(f, Some(MensajeError(f, post.error)), false, Some(Cuerpo(f)), None)
  }

  /** A password shorter than eight characters is refused before anything is posted, whatever the email. */
  lemma ContrasenaCortaNoEnvia(f: Formulario, post: Result<(), Login.Error>)
    requires |f.password| < 8
    ensures Enviar(f, post).enviado.None? && Enviar(f, post).error == Some(ContrasenaCorta)
  {
  }

  /** The three failures without a response each get their own message. */
  lemma SinRespuestaDistintos(f: Formulario, m1: string, m2: string, m3: string)
    requires Contains(m2, "Network Error") && !Contains(m3, "Network Error")
    ensures var a1 := MensajeError(f, Login.Error(None, Some("ECONNABORTED"), m1));
      var a2 := MensajeError(f, Login.Error(None, None, m2));
      var a3 := MensajeError(f, Login.Error(None, None, m3));
      a1 != a2 && a2 != a3 && a1 != a3
  {
  }

  /**
   * Once the error interceptor has run, a timeout carries a response whose only field is the
   * timeout detail, so the screen shows that detail rather than its own timeout message.
   */
  lemma TimeoutInterceptado(f: Formulario, resp: Option<Api.Respuesta>, m: string)
    ensures var e := Login.Error(Api.Normalizada(resp, Some("ECONNABORTED"), m), Some("ECONNABORTED"), m);
      MensajeError(f, e) == Detalle(Api.MensajeTimeout)
  {
    Api.TimeoutGana(resp, m);
    var r := Api.SoloDetalle(Api.MensajeTimeout);
    assert Api.Valor(r, "detail") == Some(Api.Cadena(Api.MensajeTimeout));
    assert !Nombrado(r, "username") && !Nombrado(r, "email") && !Nombrado(r, "telefono");
    assert !Nombrado(r, "password") && !Nombrado(r, "rol");
  }
}
