/**
 * The employee's movement screen: type counts, the form, its validation, the responsible
 * employee looked up from the signed-in user, the reset after a submit, and the search filter.
 */
module Movimientos {
  import opened Wrappers
  import opened Seqs
  import opened Text
  import opened Sesion
  import opened Registros
  import opened FormMovimiento

  datatype Estadisticas = Estadisticas(total: nat, entradas: nat, salidas: nat)

  /** `calcularEstadisticas`. */
  function CalcularEstadisticas(ms: seq<MovimientoVista>): (e: Estadisticas)
    ensures e.total == |ms|
    ensures forall m :: m in ms && EsEntrada(m) ==> e.entradas > 0
    ensures forall m :: m in ms && EsSalida(m) ==> e.salidas > 0
  {
    Estadisticas(|ms|, Count(ms, EsEntrada), Count(ms, EsSalida))
  }

  /** Entries and exits add up to the total when every movement has one of the two types. */
  lemma EntradasMasSalidas(ms: seq<MovimientoVista>)
    requires forall m :: m in ms ==> EsEntrada(m) || EsSalida(m)
    ensures var e := CalcularEstadisticas(ms); e.entradas + e.salidas == e.total
  {
    CountPartition2(ms, EsEntrada, EsSalida);
  }

  /** The form this screen starts with and returns to; it has no `responsable` field. */
  const FormularioInicial: Formulario := map[
    "tipo" := Txt("entrada"), "id_producto" := Txt(""), "cantidad" := Txt(""),
    "id_proveedor" := Txt(""), "id_cliente" := Txt("")]

  /** The checks of `handleSubmit`, in order; the responsible employee is not required here. */
  function Validar(f: Formulario): (r: Option<Rechazo>)
    ensures r == Some(Incompleto) <==> !Lleno(Campo(f, "id_producto")) || !Lleno(Campo(f, "cantidad"))
    ensures r == Some(SinProveedor) ==> Campo(f, "tipo") == Txt("entrada") && !Lleno(Campo(f, "id_proveedor"))
    ensures r == Some(SinCliente) ==> Campo(f, "tipo") == Txt("salida") && !Lleno(Campo(f, "id_cliente"))
    ensures r.None? <==>
      Lleno(Campo(f, "id_producto")) && Lleno(Campo(f, "cantidad")) &&
      (Campo(f, "tipo") == Txt("entrada") ==> Lleno(Campo(f, "id_proveedor"))) &&
      (Campo(f, "tipo") == Txt("salida") ==> Lleno(Campo(f, "id_cliente")))
  {
    if !Lleno(Campo(f, "id_producto")) || !Lleno(Campo(f, "cantidad")) then Some(Incompleto)
    else if Campo(f, "tipo") == Txt("entrada") && !Lleno(Campo(f, "id_proveedor")) then Some(SinProveedor)
    else if Campo(f, "tipo") == Txt("salida") && !Lleno(Campo(f, "id_cliente")) then Some(SinCliente)
    else None
  }

  predicate DelUsuario(uid: int, e: EmpleadoVista)
  {
    e.usuario == Some(uid)
  }

  /**
   * `empleadoId`: the id of the first employee whose `usuario` is the stored user id; `null` when
   * there is no user id, the employee list cannot be fetched, or no employee matches.
   */
  function Responsable(uid: Option<int>, empleados: Option<seq<EmpleadoVista>>): (r: Cifra)
    ensures r != NaN
    ensures r == Nulo <==>
      uid.None? || uid.value == 0 || empleados.None? || forall e :: e in empleados.value ==> e.usuario != uid
    ensures r.Entero? ==>
      exists i :: 0 <= i < |empleados.value| && empleados.value[i].id == r.n &&
        empleados.value[i].usuario == uid && forall j :: 0 <= j < i ==> empleados.value[j].usuario != uid
  {
    if uid.None? || uid.value == 0 || empleados.None? then Nulo
    else
      match Find(empleados.value, e => DelUsuario(uid.value, e))
      case Some(e) => Entero(e.id)
      case None => Nulo
  }

  /**
   * `handleSubmit`: the validation, then the parse of the stored user, then the body with the
   * looked-up responsible employee; nothing is posted when the stored user cannot be parsed.
   */
  function Enviar(f: Formulario, s: Almacen, empleados: Option<seq<EmpleadoVista>>): (r: Result<Cuerpo, Rechazo>)
    ensures r.Err? <==> Validar(f).Some? || CamposUsuario(s).None?
    ensures Validar(f).Some? ==> r == Err(Validar(f).value)
    ensures Validar(f).None? && "user" in s && s["user"].Texto? && s["user"].s != "" ==> r == Err(UsuarioIlegible)
    ensures r.Ok? ==>
      r.value.tipo == Campo(f, "tipo") && r.value.responsable == Responsable(UsuarioId(s), empleados) &&
      (r.value.idProveedor == Nulo <==> !Lleno(Campo(f, "id_proveedor"))) &&
      (r.value.idCliente == Nulo <==> !Lleno(Campo(f, "id_cliente")))
    ensures r.Ok? ==>
      r.value.cantidad == ParseEntero(Campo(f, "cantidad")) &&
      r.value.idProducto == ParseEntero(Campo(f, "id_producto")) &&
      (Lleno(Campo(f, "id_proveedor")) ==> r.value.idProveedor == ParseEntero(Campo(f, "id_proveedor"))) &&
      (Lleno(Campo(f, "id_cliente")) ==> r.value.idCliente == ParseEntero(Campo(f, "id_cliente")))
  {
    match Validar(f)
    case Some(e) => Err(e)
    case None =>
      if CamposUsuario(s).None? then Err(UsuarioIlegible)
      else Ok(Cuerpo(Campo(f, "tipo"), ParseEntero(Campo(f, "cantidad")), ParseEntero(Campo(f, "id_producto")),
        EnteroONulo(Campo(f, "id_proveedor")), EnteroONulo(Campo(f, "id_cliente")),
        Responsable(UsuarioId(s), empleados)))
  }

  /** The form after a submit: back to the defaults once the request succeeds, untouched otherwise. */
  function TrasEnviar(f: Formulario, s: Almacen, empleados: Option<seq<EmpleadoVista>>, exito: bool): (r: Formulario)
    ensures Enviar(f, s, empleados).Ok? && exito ==> r == FormularioInicial && Campo(r, "tipo") == Txt("entrada")
    ensures !(Enviar(f, s, empleados).Ok? && exito) ==> r == f
  {
    if Enviar(f, s, empleados).Ok? && exito then FormularioInicial else f
  }

  predicate Coincide(m: MovimientoVista, termino: string, filtroTipo: string)
  {
    (NombreCoincide(m.productoNombre, termino) || NombreCoincide(m.proveedorNombre, termino) ||
     NombreCoincide(m.clienteNombre, termino)) &&
    TipoCoincide(m.tipo, filtroTipo)
  }

  /** `movimientosFiltrados`: three name fields and the type filter, in order. */
  function MovimientosFiltrados(ms: seq<MovimientoVista>, termino: string, filtroTipo: string): (r: seq<MovimientoVista>)
    ensures IsSublist(r, ms)
    ensures forall m :: m in r <==>
      (m in ms && TipoCoincide(m.tipo, filtroTipo) &&
       (NombreCoincide(m.productoNombre, termino) || NombreCoincide(m.proveedorNombre, termino) ||
        NombreCoincide(m.clienteNombre, termino)))
  {
    Filter(ms, m => Coincide(m, termino, filtroTipo))
  }

  /** The employee's list ignores the responsible employee's name, so a movement found only by it is hidden. */
  lemma ResponsableNoSeBusca(ms: seq<MovimientoVista>, m: MovimientoVista, termino: string)
    requires m.productoNombre.None? && m.proveedorNombre.None? && m.clienteNombre.None?
    ensures m !in MovimientosFiltrados(ms, termino, "")
  {
  }
}
