/**
 * The administrator's movement screen: statistics with stock values, the form, its validation
 * and request body, the edit prefill and reset, and the search filter.
 */
module GestionMovimiento {
  import opened Wrappers
  import opened Seqs
  import opened Text
  import opened Registros
  import opened FormMovimiento

  predicate MismoProducto(id: int, p: ProductoVista) { p.id == id }

  /** One movement's value: its product's price times its quantity, or `0` when the product is unknown. */
  function ValorMovimiento(productos: seq<ProductoVista>, m: MovimientoVista): (v: int)
    ensures (forall p :: p in productos ==> p.id != m.idProducto) ==> v == 0
    ensures (exists p :: p in productos && p.id == m.idProducto) ==>
      exists p :: p in productos && p.id == m.idProducto && v == p.precio * m.cantidad
  {
    match Find(productos, p => MismoProducto(m.idProducto, p))
    case Some(p) => p.precio * m.cantidad
    case None => 0
  }

  datatype Estadisticas = Estadisticas(
    total: nat, entradas: nat, salidas: nat, valorTotalEntradas: int, valorTotalSalidas: int)

  /** The value of the movements of one type, as the two `reduce` calls compute it. */
  function ValorDeTipo(ms: seq<MovimientoVista>, productos: seq<ProductoVista>, tipo: MovimientoVista -> bool): int
  {
    Sum(Filter(ms, tipo), m => ValorMovimiento(productos, m))
  }

  /** `calcularEstadisticas`. */
  function CalcularEstadisticas(ms: seq<MovimientoVista>, productos: seq<ProductoVista>): (e: Estadisticas)
    ensures e.total == |ms| && e.entradas <= e.total && e.salidas <= e.total
  {
    Estadisticas(|ms|, Count(ms, EsEntrada), Count(ms, EsSalida),
      ValorDeTipo(ms, productos, EsEntrada), ValorDeTipo(ms, productos, EsSalida))
  }

  /** Entries and exits add up to the total when every movement has one of the two types. */
  lemma EntradasMasSalidas(ms: seq<MovimientoVista>, productos: seq<ProductoVista>)
    requires forall m :: m in ms ==> m.tipo == "entrada" || m.tipo == "salida"
    ensures var e := CalcularEstadisticas(ms, productos); e.entradas + e.salidas == e.total
  {
    CountPartition2(ms, EsEntrada, EsSalida);
  }

  /** The value of a type over two lists is the sum of the values over each: each movement counts once. */
  lemma ValorConcatenado(a: seq<MovimientoVista>, b: seq<MovimientoVista>, productos: seq<ProductoVista>,
    tipo: MovimientoVista -> bool)
    ensures ValorDeTipo(a + b, productos, tipo) == ValorDeTipo(a, productos, tipo) + ValorDeTipo(b, productos, tipo)
  {
    FilterAppend(a, b, tipo);
    SumAppend(Filter(a, tipo), Filter(b, tipo), m => ValorMovimiento(productos, m));
  }

  /** Appending a movement adds its value to the total of its own type and nothing to the other. */
  lemma ValorAgregar(ms: seq<MovimientoVista>, productos: seq<ProductoVista>, m: MovimientoVista)
    ensures ValorDeTipo(ms + [m], productos, EsEntrada) ==
      ValorDeTipo(ms, productos, EsEntrada) + (if EsEntrada(m) then ValorMovimiento(productos, m) else 0)
    ensures ValorDeTipo(ms + [m], productos, EsSalida) ==
      ValorDeTipo(ms, productos, EsSalida) + (if EsSalida(m) then ValorMovimiento(productos, m) else 0)
  {
    var f := m => ValorMovimiento(productos, m);
    ValorConcatenado(ms, [m], productos, EsEntrada);
    ValorConcatenado(ms, [m], productos, EsSalida);
    assert Filter([m], EsEntrada) == if EsEntrada(m) then [m] else [];
    assert Filter([m], EsSalida) == if EsSalida(m) then [m] else [];
    assert Sum([m], f) == f(m) + Sum([], f);
  }

  /** The empty form; `resetForm` returns to it. */
  const FormularioInicial: Formulario := map[
    "tipo" := Txt("entrada"), "id_producto" := Txt(""), "cantidad" := Txt(""),
    "id_proveedor" := Txt(""), "id_cliente" := Txt(""), "responsable" := Txt("")]

  /** The validation and body of `handleSubmit`. */
  function Enviar(f: Formulario): (r: Result<Cuerpo, Rechazo>)
    ensures r == Err(Incompleto) <==>
      !Lleno(Campo(f, "id_producto")) || !Lleno(Campo(f, "cantidad")) || !Lleno(Campo(f, "responsable"))
    ensures r == Err(SinProveedor) ==> Campo(f, "tipo") == Txt("entrada") && !Lleno(Campo(f, "id_proveedor"))
    ensures r == Err(SinCliente) ==> Campo(f, "tipo") == Txt("salida") && !Lleno(Campo(f, "id_cliente"))
    ensures r.Ok? <==>
      Lleno(Campo(f, "id_producto")) && Lleno(Campo(f, "cantidad")) && Lleno(Campo(f, "responsable")) &&
      (Campo(f, "tipo") == Txt("entrada") ==> Lleno(Campo(f, "id_proveedor"))) &&
      (Campo(f, "tipo") == Txt("salida") ==> Lleno(Campo(f, "id_cliente")))
    ensures r.Ok? ==>
      r.value.tipo == Campo(f, "tipo") &&
      (r.value.idProveedor == Nulo <==> !Lleno(Campo(f, "id_proveedor"))) &&
      (r.value.idCliente == Nulo <==> !Lleno(Campo(f, "id_cliente"))) &&
      r.value.cantidad != Nulo && r.value.idProducto != Nulo && r.value.responsable != Nulo
    ensures r.Ok? ==>
      r.value.cantidad == ParseEntero(Campo(f, "cantidad")) &&
      r.value.idProducto == ParseEntero(Campo(f, "id_producto")) &&
      r.value.responsable == ParseEntero(Campo(f, "responsable")) &&
      (Lleno(Campo(f, "id_proveedor")) ==> r.value.idProveedor == ParseEntero(Campo(f, "id_proveedor"))) &&
      (Lleno(Campo(f, "id_cliente")) ==> r.value.idCliente == ParseEntero(Campo(f, "id_cliente")))
  {
    if !Lleno(Campo(f, "id_producto")) || !Lleno(Campo(f, "cantidad")) || !Lleno(Campo(f, "responsable")) then
      Err(Incompleto)
    else if Campo(f, "tipo") == Txt("entrada") && !Lleno(Campo(f, "id_proveedor")) then Err(SinProveedor)
    else if Campo(f, "tipo") == Txt("salida") && !Lleno(Campo(f, "id_cliente")) then Err(SinCliente)
    else
      Ok(Cuerpo(Campo(f, "tipo"), ParseEntero(Campo(f, "cantidad")), ParseEntero(Campo(f, "id_producto")),
        EnteroONulo(Campo(f, "id_proveedor")), EnteroONulo(Campo(f, "id_cliente")),
        ParseEntero(Campo(f, "responsable"))))
  }

  /** `x || ""` for an optional id. */
  function IdOVacio(o: Option<int>): Entrada
  {
    if o.Some? && o.value != 0 then Num(o.value) else Txt("")
  }

  /** `editMovimiento`: the form takes the movement's own values. */
  function Editar(m: MovimientoVista): (f: Formulario)
    ensures Campo(f, "tipo") == Txt(m.tipo)
    ensures Campo(f, "id_producto") == Num(m.idProducto) && Campo(f, "cantidad") == Num(m.cantidad)
    ensures Lleno(Campo(f, "id_proveedor")) <==> m.idProveedor.Some? && m.idProveedor.value != 0
    ensures Lleno(Campo(f, "id_cliente")) <==> m.idCliente.Some? && m.idCliente.value != 0
  {
    map["tipo" := Txt(m.tipo), "id_producto" := Num(m.idProducto), "cantidad" := Num(m.cantidad),
        "id_proveedor" := IdOVacio(m.idProveedor), "id_cliente" := IdOVacio(m.idCliente),
        "responsable" := IdOVacio(m.responsable)]
  }

  /** Saving an edited movement unchanged sends back its own ids and quantity. */
  lemma EditarYEnviar(m: MovimientoVista)
    requires m.idProducto != 0 && m.cantidad != 0 && m.responsable.Some? && m.responsable.value != 0
    requires m.tipo == "entrada" ==> m.idProveedor.Some? && m.idProveedor.value != 0
    requires m.tipo == "salida" ==> m.idCliente.Some? && m.idCliente.value != 0
    ensures var r := Enviar(Editar(m));
      r.Ok? && r.value.tipo == Txt(m.tipo) && r.value.cantidad == Entero(m.cantidad) &&
      r.value.idProducto == Entero(m.idProducto) && r.value.responsable == Entero(m.responsable.value) &&
      (m.idProveedor.Some? && m.idProveedor.value != 0 ==> r.value.idProveedor == Entero(m.idProveedor.value)) &&
      (m.idCliente.Some? && m.idCliente.value != 0 ==> r.value.idCliente == Entero(m.idCliente.value))
  {
  }

  /**
   * Switching a completed exit to "entrada" clears the supplier and keeps the client, so the
   * client of the exit reaches the body of the entry.
   */
  lemma ClienteSobrevive(f: Formulario, proveedor: string, cliente: int)
    requires f == FormularioInicial["tipo" := Txt("salida")]["id_producto" := Txt("3")]["cantidad" := Txt("2")]
                  ["responsable" := Txt("1")]["id_cliente" := Num(cliente)]
    requires cliente != 0
    ensures var g := CambiarCampo(CambiarCampo(f, "tipo", "entrada"), "id_proveedor", proveedor);
      Lleno(Campo(g, "id_proveedor")) <==> proveedor != ""
    ensures var g := CambiarCampo(CambiarCampo(f, "tipo", "entrada"), "id_proveedor", proveedor);
      proveedor != "" ==> Enviar(g).Ok? && Enviar(g).value.idCliente == Entero(cliente)
  {
  }

  predicate Coincide(m: MovimientoVista, termino: string, filtroTipo: string)
  {
    (NombreCoincide(m.productoNombre, termino) || NombreCoincide(m.proveedorNombre, termino) ||
     NombreCoincide(m.clienteNombre, termino) || NombreCoincide(m.responsableNombre, termino)) &&
    TipoCoincide(m.tipo, filtroTipo)
  }

  /** `movimientosFiltrados`: the movements some present name matches, of the chosen type, in order. */
  function MovimientosFiltrados(ms: seq<MovimientoVista>, termino: string, filtroTipo: string): (r: seq<MovimientoVista>)
    ensures IsSublist(r, ms)
    ensures forall m :: m in r <==>
      (m in ms && TipoCoincide(m.tipo, filtroTipo) &&
       (NombreCoincide(m.productoNombre, termino) || NombreCoincide(m.proveedorNombre, termino) ||
        NombreCoincide(m.clienteNombre, termino) || NombreCoincide(m.responsableNombre, termino)))
  {
    Filter(ms, m => Coincide(m, termino, filtroTipo))
  }

  /** A movement with no name fields is never shown, whatever the term. */
  lemma SinNombresOculto(ms: seq<MovimientoVista>, m: MovimientoVista, termino: string, filtroTipo: string)
    requires m.productoNombre.None? && m.proveedorNombre.None? && m.clienteNombre.None? && m.responsableNombre.None?
    ensures m !in MovimientosFiltrados(ms, termino, filtroTipo)
  {
  }

  /** With an empty term and no type filter, exactly the movements with some name are shown. */
  lemma TerminoVacioMuestraConNombre(ms: seq<MovimientoVista>, m: MovimientoVista)
    requires m in ms
    ensures m in MovimientosFiltrados(ms, "", "") <==>
      m.productoNombre.Some? || m.proveedorNombre.Some? || m.clienteNombre.Some? || m.responsableNombre.Some?
  {
    TerminoVacio(m.productoNombre);
    TerminoVacio(m.proveedorNombre);
    TerminoVacio(m.clienteNombre);
    TerminoVacio(m.responsableNombre);
  }
}
